/** The installer's terminal progress displays: a bar with a fixed width
    (`ProgressBar`) and a ten-frame spinner (`SpinnerProgress`). What they
    would print is kept as values; the terminal is outside the model. */
module Progress {
  import opened Wrappers
  import opened Text

  /** Python's `int(a / b)` on integers: true division, then truncation toward zero. */
  function TruncDiv(a: int, b: int): int
    requires b != 0
  {
    var q := Abs(a) / Abs(b);
    if (a >= 0) == (b > 0) || a == 0 then q else -q
  }

  function Abs(x: int): nat {
    if x < 0 then -x else x
  }

  function Min(a: int, b: int): int {
    if a <= b then a else b
  }

  const ZeroDivision: string := "division by zero"
  const Block: char := '\U{2588}'

  /** What one `update` shows: the percentage, the bar between the `|`s, and
      whether it ends the line because the total is reached. */
  datatype Shown = Shown(percentage: int, bar: string, completes: bool)

  /** The display for `current` out of `total` on a bar `width` wide. */
  function Display(width: int, current: int, total: int): Shown
    requires total != 0
  {
    var filled := TruncDiv(width * current, total);
    Shown(TruncDiv(current * 100, total), BarOf(filled, width), current >= total)
  }

  /** `c * a / b` does not exceed `c` when `0 <= a <= b`. */
  lemma ScaledBelow(c: nat, a: nat, b: nat)
    requires 0 < b && a <= b
    ensures c * a / b <= c
  {
    assert c * a <= c * b by {
      assert c * b - c * a == c * (b - a);
    }
    QuotientBelow(c * a, b, c);
  }

  /** A dividend of at most `c` divisors has a quotient of at most `c`. */
  lemma QuotientBelow(x: nat, b: nat, c: nat)
    requires 0 < b && x <= c * b
    ensures x / b <= c
  {
    assert b * (x / b) + x % b == x;
    assert b * (x / b) <= b * c;
    CancelFactor(x / b, c, b);
  }

  /** A positive factor can be cancelled from both sides of `<=`. */
  lemma CancelFactor(p: int, q: int, b: int)
    requires 0 < b && b * p <= b * q
    ensures p <= q
  {
    assert b * (q - p) == b * q - b * p;
  }

  /** A multiple of `b` divided by `b` gives the multiplier back. */
  lemma ExactQuotient(c: nat, b: nat)
    requires 0 < b
    ensures c * b / b == c
  {
    var q := c * b / b;
    assert b * q + (c * b) % b == c * b;
    assert b * q <= b * c;
    CancelFactor(q, c, b);
    assert b * c < b * (q + 1);
    CancelFactorStrict(c, q + 1, b);
  }

  lemma CancelFactorStrict(p: int, q: int, b: int)
    requires 0 < b && b * p < b * q
    ensures p < q
  {
    assert b * (q - p) == b * q - b * p;
  }

  /** `filled` blocks followed by dashes up to `width`. */
  function BarOf(filled: int, width: int): string {
    Repeat(Block, filled) + Repeat('-', width - filled)
  }

  lemma BarShape(filled: int, width: int)
    requires 0 <= filled <= width
    ensures |BarOf(filled, width)| == width
    ensures forall k :: 0 <= k < filled ==> BarOf(filled, width)[k] == Block
    ensures forall k :: filled <= k < width ==> BarOf(filled, width)[k] == '-'
  {
    var bar := BarOf(filled, width);
    assert forall k :: filled <= k < width ==> bar[k] == Repeat('-', width - filled)[k - filled];
  }

  /** On non-negative operands Python's truncating division is floor division. */
  lemma TruncDivNonNegative(a: nat, b: nat)
    requires b > 0
    ensures TruncDiv(a, b) == a / b
  {
  }

  /** For a progress that has not overshot a positive total, the percentage
      is between 0 and 100, the bar is exactly `width` characters: `filled`
      blocks then dashes, and it is full exactly at the total. */
  lemma DisplayBounds(width: nat, current: nat, total: nat)
    requires 0 < total && current <= total
    ensures var s := Display(width, current, total);
      var filled := width * current / total;
      && 0 <= s.percentage <= 100
      && 0 <= filled <= width
      && s.bar == BarOf(filled, width)
      && |s.bar| == width
      && (forall k :: 0 <= k < filled ==> s.bar[k] == Block)
      && (forall k :: filled <= k < width ==> s.bar[k] == '-')
      && (current == total ==> s.percentage == 100 && filled == width && s.completes)
  {
    var scaled := width * current;
    var hundredfold := current * 100;
    ScaledBelow(100, current, total);
    ScaledBelow(width, current, total);
    TruncDivNonNegative(scaled, total);
    TruncDivNonNegative(hundredfold, total);
    BarShape(scaled / total, width);
    if current == total {
      ExactQuotient(width, total);
      ExactQuotient(100, total);
    }
  }

  class ProgressBar {
    var total: int
    const prefix: string
    const width: int
    var current: int
    /** What each `update` showed, in order. */
    var shown: seq<Shown>

    /** The constructor takes any total; `update` then divides by it. */
    constructor (total: int, prefix: string, width: int)
      ensures this.total == total && this.prefix == prefix && this.width == width
      ensures current == 0 && shown == []
    {
      this.total := total;
      this.prefix := prefix;
      this.width := width;
      current := 0;
      shown := [];
    }

    /** `update`: moves to the given value, or one step on, never past the
        total; then shows the bar, which raises `ZeroDivisionError` for a
        total of 0 after the move. */
    method Update(value: Option<int>) returns (r: Outcome<string>)
      modifies this
      ensures current == Min(if value.Some? then value.value else old(current) + 1, total)
      ensures current <= total
      ensures total == old(total)
      ensures total == 0 ==> r == Fail(ZeroDivision) && shown == old(shown)
      ensures total != 0 ==> r == Pass && shown == old(shown) + [Display(width, current, total)]
    {
      if value.Some? {
        current := Min(value.value, total);
      } else {
        current := Min(current + 1, total);
      }
      if total == 0 {
        return Fail(ZeroDivision);
      }
      shown := shown + [Display(width, current, total)];
      r := Pass;
    }

    /** Leaving a `task` block, normally or by an exception: a bar short of
        its total is filled. */
    method ExitTask() returns (r: Outcome<string>)
      modifies this
      ensures total == old(total)
      ensures old(current) < total ==> current == total
      ensures old(current) >= total ==> current == old(current) && shown == old(shown) && r == Pass
      ensures old(current) < total && total != 0 ==>
                r == Pass && shown == old(shown) + [Display(width, total, total)]
    {
      r := Pass;
      if current < total {
        current := total;
        r := Update(None);
      }
    }
  }

  /** A positive-total bar that is left by `task` shows a full bar and 100%. */
  method TaskFillsBar(bar: ProgressBar)
    requires 0 < bar.total && 0 <= bar.width && 0 <= bar.current < bar.total
    modifies bar
    ensures bar.current == bar.total && |bar.shown| > 0
    ensures var s := bar.shown[|bar.shown| - 1]; s.percentage == 100 && s.completes && |s.bar| == bar.width
  {
    var r := bar.ExitTask();
    DisplayBounds(bar.width, bar.total, bar.total);
  }

  /** The spinner's frames: ten braille patterns. */
  const SpinnerChars: string :=
    ['\U{280B}', '\U{2819}', '\U{2839}', '\U{2838}', '\U{283C}',
     '\U{2834}', '\U{2826}', '\U{2827}', '\U{2807}', '\U{280F}']

  const Tick: char := '\U{2713}'
  const Cross: char := '\U{2717}'

  class SpinnerProgress {
    var current: nat
    var message: string

    constructor ()
      ensures current == 0 && message == ""
    {
      current := 0;
      message := "";
    }

    /** `spin`: shows the frame for the step count and counts one more step. */
    method Spin(text: string) returns (frame: char)
      modifies this
      ensures frame == SpinnerChars[old(current) % |SpinnerChars|]
      ensures current == old(current) + 1 && message == old(message)
    {
      frame := SpinnerChars[current % |SpinnerChars|];
      current := current + 1;
    }

    /** `task`: records the description, marks the outcome of the block with
        a tick or a cross, and re-raises what the block raised. */
    method Task(description: string, block: Outcome<string>) returns (r: Outcome<string>, mark: char)
      modifies this
      ensures message == description && current == old(current)
      ensures r == block
      ensures mark == if block.Pass? then Tick else Cross
    {
      message := description;
      r := block;
      mark := if block.Pass? then Tick else Cross;
    }
  }

  /** Two step counts show the same spinner frame exactly when they agree
      modulo ten: the frames repeat every ten spins and the ten frames are
      all different. */
  lemma SpinnerCycle(n: nat, m: nat)
    ensures SpinnerChars[(n + 10) % |SpinnerChars|] == SpinnerChars[n % |SpinnerChars|]
    ensures SpinnerChars[n % |SpinnerChars|] == SpinnerChars[m % |SpinnerChars|] <==> n % 10 == m % 10
  {
  }
}
