/** Simulated time (clock.py): a four-slot breakdown [days, hours, minutes, seconds]
    held in an array, a `Duration` parsed from a colon string and normalised with
    carries, a count-up `IncrClock` driving a run and a count-down `DecrClock` timing
    one recipe. The value-level functions below say what each in-place operation
    computes; the classes perform the operations on the array and are proved equal
    to them. */
module Clock {
  import opened Wrappers
  import opened Text

  const DAYS := 0
  const HOURS := 1
  const MINUTES := 2
  const SECONDS := 3

  /** `to_minutes()`: seconds are ignored. */
  function Minutes(v: seq<int>): int
    requires |v| == 4
  {
    v[DAYS] * 24 * 60 + v[HOURS] * 60 + v[MINUTES]
  }

  predicate NonNegative(v: seq<int>)
  {
    forall i :: 0 <= i < |v| ==> v[i] >= 0
  }

  /** The shape every parsed duration has: seconds truncated, minutes and hours carried. */
  predicate InNormalForm(v: seq<int>)
  {
    |v| == 4 && NonNegative(v) && v[SECONDS] == 0 && v[MINUTES] < 60 && v[HOURS] < 24
  }

  /** The range a count-up clock keeps: a 24-hour dial with a day counter. */
  predicate OnDial(v: seq<int>)
  {
    |v| == 4 && v[DAYS] >= 0 && 0 <= v[HOURS] <= 23 && 0 <= v[MINUTES] <= 59
  }

  /** The exact time a field list denotes, at minute granularity. */
  function FieldMinutes(v: seq<int>): int
    requires |v| == 4
  {
    Minutes(v) + v[SECONDS] / 60
  }

  /** The padding loop of `_normalize`: missing leading fields become zero. */
  function Pad(fields: seq<int>): (r: seq<int>)
    requires |fields| <= 4
    ensures |r| == 4
    ensures r[4 - |fields|..] == fields
    ensures forall i :: 0 <= i < 4 - |fields| ==> r[i] == 0
  {
    seq(4 - |fields|, _ => 0) + fields
  }

  /** `_normalize` on four fields: carry seconds, minutes and hours upward (each carry
      only when the slot has reached its limit), then drop the seconds. */
  function Normalized(v: seq<int>): (r: seq<int>)
    requires |v| == 4
    ensures |r| == 4 && r[SECONDS] == 0
    ensures Minutes(r) == Minutes(v) + (if v[SECONDS] >= 60 then v[SECONDS] / 60 else 0)
    ensures NonNegative(v) ==> InNormalForm(r)
  {
    var a := if v[SECONDS] >= 60 then [v[DAYS], v[HOURS], v[MINUTES] + v[SECONDS] / 60, v[SECONDS] % 60] else v;
    var b := if a[MINUTES] >= 60 then [a[DAYS], a[HOURS] + a[MINUTES] / 60, a[MINUTES] % 60, a[SECONDS]] else a;
    var c := if b[HOURS] >= 24 then [b[DAYS] + b[HOURS] / 24, b[HOURS] % 24, b[MINUTES], b[SECONDS]] else b;
    [c[DAYS], c[HOURS], c[MINUTES], 0]
  }

  /** `list(map(int, pieces))`, failing on the first piece that is not a number. */
  function ParseFields(pieces: seq<string>): (r: Result<seq<int>>)
    ensures r.Ok? <==> forall k :: 0 <= k < |pieces| ==> ParseInt(pieces[k]).Some?
    ensures r.Ok? ==> |r.value| == |pieces| && NonNegative(r.value)
    ensures r.Ok? ==> forall k :: 0 <= k < |pieces| ==> r.value[k] == ParseInt(pieces[k]).value
  {
    if |pieces| == 0 then Ok([])
    else match ParseInt(pieces[0])
      case None => Err(InvalidNumber(pieces[0]))
      case Some(n) =>
        var rest := ParseFields(pieces[1..]);
        if rest.Err? then Err(rest.error)
        else
          assert forall k :: 1 <= k < |pieces| ==> pieces[k] == pieces[1..][k - 1];
          Ok([n as int] + rest.value)
  }

  /** What `Duration(s)` leaves in `vals`, or the exception it raises. */
  function Parsed(s: string): (r: Result<seq<int>>)
    ensures |Split(s, ':')| > 4 ==> r.Err?
    ensures r.Ok? <==> |Split(s, ':')| <= 4 && ParseFields(Split(s, ':')).Ok?
    ensures r.Ok? ==> InNormalForm(r.value)
    ensures r.Ok? ==> Minutes(r.value) == FieldMinutes(Pad(ParseFields(Split(s, ':')).value))
  {
    var fields :- ParseFields(Split(s, ':'));
    if |fields| > 4 then Err(InvalidDuration(s)) else Ok(Normalized(Pad(fields)))
  }

  /** `int(x)` on a float: truncation toward zero. */
  function Trunc(x: real): (t: int)
    ensures x >= 0.0 ==> t == x.Floor
    ensures x >= 0.0 ==> x - 1.0 < t as real <= x
    ensures x < 0.0 ==> x <= t as real < x + 1.0
  {
    if x >= 0.0 then x.Floor else -((-x).Floor)
  }

  /** `apply_efficiency(e)`: hours and minutes are overwritten with the scaled total, and
      the days slot is kept, so the days of the old value are counted twice. A zero
      efficiency is a division by zero, which callers handle. */
  function WithEfficiency(v: seq<int>, e: real): (r: seq<int>)
    requires |v| == 4 && e != 0.0
    ensures |r| == 4
    ensures Minutes(r) == v[DAYS] * 24 * 60 + Trunc(Minutes(v) as real / e)
                          + (if v[SECONDS] >= 60 then v[SECONDS] / 60 else 0)
    ensures NonNegative(v) && e > 0.0 ==> InNormalForm(r)
  {
    var t := Trunc(Minutes(v) as real / e);
    assert NonNegative(v) && e > 0.0 ==> Minutes(v) as real / e >= 0.0;
    Normalized([v[DAYS], t / 60, t % 60, v[SECONDS]])
  }

  /** `apply_multiplier(n)`. It is not defined in the files modelled; it is modelled as
      scaling the total in minutes by `n` and normalising. */
  function WithMultiplier(v: seq<int>, n: nat): (r: seq<int>)
    requires |v| == 4
    ensures |r| == 4 && Minutes(r) == Minutes(v) * n
    ensures Minutes(v) >= 0 ==> InNormalForm(r)
  {
    var t := Minutes(v) * n;
    Normalized([0, 0, t, 0])
  }

  /** One minute of `IncrClock.step`. */
  function TickUp(v: seq<int>): (r: seq<int>)
    requires |v| == 4
    ensures |r| == 4 && r[SECONDS] == v[SECONDS]
    ensures OnDial(v) ==> OnDial(r) && Minutes(r) == Minutes(v) + 1
  {
    if v[HOURS] >= 23 && v[MINUTES] == 59 then [v[DAYS] + 1, 0, 0, v[SECONDS]]
    else if v[MINUTES] == 59 then [v[DAYS], v[HOURS] + 1, 0, v[SECONDS]]
    else [v[DAYS], v[HOURS], v[MINUTES] + 1, v[SECONDS]]
  }

  /** One minute of `DecrClock.step`: borrow from hours, then from days; stop at zero. */
  function TickDown(v: seq<int>): (r: seq<int>)
    requires |v| == 4
    ensures |r| == 4 && r[SECONDS] == v[SECONDS]
    ensures NonNegative(v[..3]) ==> NonNegative(r[..3])
    ensures NonNegative(v[..3]) ==> Minutes(r) == if Minutes(v) > 0 then Minutes(v) - 1 else Minutes(v)
    ensures NonNegative(v[..3]) && Minutes(v) <= 0 ==> r == v
    ensures InNormalForm(v) ==> InNormalForm(r)
  {
    assert NonNegative(v[..3]) ==> v[DAYS] >= 0 && v[HOURS] >= 0 && v[MINUTES] >= 0;
    if v[HOURS] > 0 && v[MINUTES] == 0 then [v[DAYS], v[HOURS] - 1, 59, v[SECONDS]]
    else if v[DAYS] > 0 && v[MINUTES] == 0 then [v[DAYS] - 1, 23, 59, v[SECONDS]]
    else if v[MINUTES] > 0 then [v[DAYS], v[HOURS], v[MINUTES] - 1, v[SECONDS]]
    else v
  }

  /** `'{:02d}'.format(n)`. */
  function TwoDigits(n: int): (s: string)
    ensures ':' !in s && |s| > 0
    ensures n >= 0 ==> AllDigits(s)
  {
    if 0 <= n < 10 then ['0', Digit(n)]
    else if n >= 10 then NatToString(n)
    else "-" + NatToString(-n)
  }

  /** `__str__`: 'DD HH:MM:SS'. */
  function Show(v: seq<int>): string
    requires |v| == 4
  {
    TwoDigits(v[DAYS]) + (" " + TwoDigits(v[HOURS]) + ":" + TwoDigits(v[MINUTES]) + ":" + TwoDigits(v[SECONDS]))
  }

  /** The display form is not accepted back by the parser: its first colon field holds
      the space between days and hours. */
  lemma ShowIsNotParsable(v: seq<int>)
    requires |v| == 4
    ensures Parsed(Show(v)).Err?
  {
    var d := TwoDigits(v[DAYS]);
    var rest := " " + TwoDigits(v[HOURS]) + ":" + TwoDigits(v[MINUTES]) + ":" + TwoDigits(v[SECONDS]);
    assert Show(v) == d + rest;
    SplitPrefix(d, rest, ':');
    var first := Split(Show(v), ':')[0];
    assert first == d + Split(rest, ':')[0];
    assert rest[0] == ' ';
    assert Split(rest, ':')[0][0] == ' ';
    assert first[|d|] == ' ';
    assert !AllDigits(first);
    assert ParseInt(first).None?;
  }

  /** One hour at efficiency 0.5 becomes two hours. */
  lemma HalfEfficiencyDoublesAnHour()
    ensures Minutes(WithEfficiency([0, 1, 0, 0], 0.5)) == 120
  {
    assert 60 as real / 0.5 == 120.0;
  }

  /** Scaling is exact only without days: a one-day duration at 0.5 becomes three days,
      not two. */
  lemma EfficiencyCountsDaysTwice()
    ensures Minutes(WithEfficiency([1, 0, 0, 0], 0.5)) == 3 * 24 * 60
  {
    assert 1440 as real / 0.5 == 2880.0;
  }

  /** For a normalised duration the result is `floor(total / e)` exactly when there are no
      days; otherwise the days are added a second time. */
  lemma EfficiencyExactIffNoDays(v: seq<int>, e: real)
    requires InNormalForm(v) && e > 0.0
    ensures Minutes(WithEfficiency(v, e)) == v[DAYS] * 24 * 60 + (Minutes(v) as real / e).Floor
    ensures Minutes(WithEfficiency(v, e)) == (Minutes(v) as real / e).Floor <==> v[DAYS] == 0
  {
    assert Minutes(v) as real / e >= 0.0;
  }

  /** Parsing example of the clock test driver: '3600' seconds is one hour. */
  lemma ParsedHourOfSeconds()
    ensures Parsed("3600") == Ok([0, 1, 0, 0])
  {
    SplitNoSeparator("3600", ':');
    DigitsOfHour();
    var fields := ParseFields(["3600"]);
    assert ["3600"][0] == "3600";
    assert fields.Ok? && |fields.value| == 1 && fields.value[0] == 3600;
    assert fields.value == [3600];
    assert Pad([3600]) == [0, 0, 0, 3600];
    NormalizedHour();
  }

  /** Parsing example of the clock test driver: '86400' seconds is one day. */
  lemma ParsedDayOfSeconds()
    ensures Parsed("86400") == Ok([1, 0, 0, 0])
  {
    SplitNoSeparator("86400", ':');
    DigitsOfDay();
    var fields := ParseFields(["86400"]);
    assert ["86400"][0] == "86400";
    assert fields.Ok? && |fields.value| == 1 && fields.value[0] == 86400;
    assert fields.value == [86400];
    assert Pad([86400]) == [0, 0, 0, 86400];
    NormalizedDay();
  }

  lemma DigitsOfDay()
    ensures ParseInt("86400") == Some(86400)
  {
    assert "86400"[..4] == "8640" && "8640"[..3] == "864" && "864"[..2] == "86";
    assert "86"[..1] == "8" && "8"[..0] == "";
    assert DigitsValue("8") == 8;
    assert DigitsValue("86") == 86;
    assert DigitsValue("864") == 864;
    assert DigitsValue("8640") == 8640;
  }

  lemma DigitsOfHour()
    ensures ParseInt("3600") == Some(3600)
  {
    assert "3600"[..3] == "360" && "360"[..2] == "36" && "36"[..1] == "3" && "3"[..0] == "";
    assert DigitsValue("3") == 3;
    assert DigitsValue("36") == 36;
    assert DigitsValue("360") == 360;
  }

  lemma NormalizedHour()
    ensures Normalized([0, 0, 0, 3600]) == [0, 1, 0, 0]
  {
    assert 3600 / 60 == 60 && 3600 % 60 == 0;
    assert 60 / 60 == 1 && 60 % 60 == 0;
  }

  lemma NormalizedDay()
    ensures Normalized([0, 0, 0, 86400]) == [1, 0, 0, 0]
  {
    assert 86400 / 60 == 1440 && 86400 % 60 == 0;
    assert 1440 / 60 == 24 && 1440 % 60 == 0;
  }

  // ---------------------------------------------------------------------------------
  // The objects

  class Duration {
    const vals: array<int>

    /** The part of `__init__` after the fields were converted and counted. */
    constructor FromFields(fields: seq<int>)
      requires |fields| <= 4
      ensures fresh(vals) && vals.Length == 4
      ensures vals[..] == Normalized(Pad(fields))
    {
      var v := fields;
      while |v| < 4
        invariant |fields| <= |v| <= 4
        invariant v == Pad(fields)[4 - |v|..]
      {
        v := [0] + v;
      }
      assert v == Pad(fields);
      vals := new int[4](i => if 0 <= i < |v| then v[i] else 0);
      new;
      assert vals[..] == v;
      Normalize();
    }

    function ToMinutes(): int
      reads this, vals
      requires vals.Length == 4
    {
      Minutes(vals[..])
    }

    /** `_normalize` on the four slots, in place. */
    method Normalize()
      requires vals.Length == 4
      modifies vals
      ensures vals[..] == Normalized(old(vals[..]))
    {
      if vals[SECONDS] >= 60 {
        var mins := vals[SECONDS] / 60;
        var secs := vals[SECONDS] % 60;
        vals[MINUTES] := vals[MINUTES] + mins;
        vals[SECONDS] := secs;
      }
      if vals[MINUTES] >= 60 {
        var hrs := vals[MINUTES] / 60;
        var mins := vals[MINUTES] % 60;
        vals[HOURS] := vals[HOURS] + hrs;
        vals[MINUTES] := mins;
      }
      if vals[HOURS] >= 24 {
        var days := vals[HOURS] / 24;
        var hrs := vals[HOURS] % 24;
        vals[DAYS] := vals[DAYS] + days;
        vals[HOURS] := hrs;
      }
      vals[SECONDS] := 0;
    }

    method ApplyEfficiency(e: real)
      requires vals.Length == 4 && e != 0.0
      modifies vals
      ensures vals[..] == WithEfficiency(old(vals[..]), e)
    {
      var mins := Trunc(ToMinutes() as real / e);
      vals[HOURS] := mins / 60;
      vals[MINUTES] := mins % 60;
      Normalize();
    }

    method ApplyMultiplier(n: nat)
      requires vals.Length == 4
      modifies vals
      ensures vals[..] == WithMultiplier(old(vals[..]), n)
    {
      var mins := ToMinutes() * n;
      vals[DAYS], vals[HOURS], vals[MINUTES], vals[SECONDS] := 0, 0, mins, 0;
      Normalize();
    }
  }

  /** `Duration(s)`: split on ':', convert every field, reject more than four, normalise. */
  method NewDuration(s: string) returns (r: Result<Duration>)
    ensures r.Ok? <==> Parsed(s).Ok?
    ensures r.Err? ==> r.error == Parsed(s).error
    ensures r.Ok? ==> fresh(r.value.vals) && r.value.vals.Length == 4 && r.value.vals[..] == Parsed(s).value
  {
    var fields :- ParseFields(Split(s, ':'));
    if |fields| > 4 {
      return Err(InvalidDuration(s));
    }
    var d := new Duration.FromFields(fields);
    return Ok(d);
  }

  class IncrClock {
    const vals: array<int>
    const duration: Duration

    ghost predicate Valid()
      reads this, vals, duration
    {
      vals.Length == 4 && duration.vals.Length == 4 && vals != duration.vals && OnDial(vals[..])
    }

    constructor(duration: Duration)
      requires duration.vals.Length == 4
      ensures Valid() && fresh(vals) && this.duration == duration
      ensures vals[..] == [0, 0, 0, 0]
    {
      this.duration := duration;
      vals := new int[4](_ => 0);
      new;
      assert vals[..] == [0, 0, 0, 0];
    }

    function ToMinutes(): int
      reads this, vals
      requires vals.Length == 4
    {
      Minutes(vals[..])
    }

    method Step() returns (more: bool)
      requires Valid()
      modifies vals
      ensures Valid()
      ensures vals[..] == TickUp(old(vals[..]))
      ensures ToMinutes() == old(ToMinutes()) + 1
      ensures more == (ToMinutes() < duration.ToMinutes())
    {
      if vals[HOURS] >= 23 && vals[MINUTES] == 59 {
        vals[MINUTES] := 0;
        vals[HOURS] := 0;
        vals[DAYS] := vals[DAYS] + 1;
      } else if vals[MINUTES] == 59 {
        vals[MINUTES] := 0;
        vals[HOURS] := vals[HOURS] + 1;
      } else {
        vals[MINUTES] := vals[MINUTES] + 1;
      }
      more := ToMinutes() < duration.ToMinutes();
    }
  }

  /** A countdown that shares (does not copy) the slots of the `Duration` it starts from. */
  class DecrClock {
    const vals: array<int>
    const duration: Duration

    constructor(duration: Duration)
      requires duration.vals.Length == 4
      ensures this.duration == duration && vals == duration.vals
    {
      this.duration := duration;
      vals := duration.vals;
    }

    function ToMinutes(): int
      reads this, vals
      requires vals.Length == 4
    {
      Minutes(vals[..])
    }

    method Step() returns (more: bool)
      requires vals.Length == 4
      modifies vals
      ensures vals[..] == TickDown(old(vals[..]))
      ensures more == (ToMinutes() > 0)
    {
      if vals[HOURS] > 0 && vals[MINUTES] == 0 {
        vals[MINUTES] := 59;
        vals[HOURS] := vals[HOURS] - 1;
      } else if vals[DAYS] > 0 && vals[MINUTES] == 0 {
        vals[MINUTES] := 59;
        vals[HOURS] := 23;
        vals[DAYS] := vals[DAYS] - 1;
      } else if vals[MINUTES] > 0 {
        vals[MINUTES] := vals[MINUTES] - 1;
      }
      more := ToMinutes() > 0;
    }
  }

  /** Stepping a countdown built from `d` moves `d` itself down by one minute. */
  method CountdownMovesItsDuration(d: Duration)
    requires d.vals.Length == 4 && NonNegative(d.vals[..3])
    modifies d.vals
    ensures d.ToMinutes() == if old(d.ToMinutes()) > 0 then old(d.ToMinutes()) - 1 else old(d.ToMinutes())
  {
    var countdown := new DecrClock(d);
    assert d.vals[..][..3] == d.vals[..3];
    var _ := countdown.Step();
  }
}
