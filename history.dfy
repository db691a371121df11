/** The rolling window of daily snapshots kept in the stats record
    (index.js:68-83), and the two projections of it that the charts use
    (index.js:90, 112). */
module History {

  /** One daily snapshot: the local calendar date, kept as opaque text, and
      the cumulative hours seen on that day. */
  datatype Entry = Entry(date: string, hours: real)

  /** The number of days the window keeps. */
  const Capacity: nat := 7

  /** The midnight job's update of the window: push the new entry, then drop
      the oldest one when the window has grown past its capacity. Exactly one
      entry is dropped, so a window that was already over capacity stays as
      long as it was. */
  function Rotate(h: seq<Entry>, e: Entry): (r: seq<Entry>)
    ensures |r| == if |h| < Capacity then |h| + 1 else |h|
    ensures r[|r| - 1] == e
    ensures |h| <= Capacity ==> |r| <= Capacity
    ensures r == (h + [e])[|h| + 1 - |r|..]
    ensures |h| < Capacity ==> r == h + [e]
    ensures |h| >= Capacity ==> r == h[1..] + [e]
  {
    var pushed := h + [e];
    if |pushed| > Capacity then pushed[1..] else pushed
  }

  /** The last `n` elements of `s`, or all of `s` when it is shorter. */
  function LastN<T>(s: seq<T>, n: nat): (r: seq<T>)
    ensures |r| == if |s| <= n then |s| else n
    ensures forall k :: 0 <= k < |r| ==> r[k] == s[|s| - |r| + k]
  {
    if |s| <= n then s else s[|s| - n..]
  }

  /** The window after one midnight job per element of `days`, oldest first. */
  function RotateAll(h: seq<Entry>, days: seq<Entry>): seq<Entry>
    decreases |days|
  {
    if days == [] then h else RotateAll(Rotate(h, days[0]), days[1..])
  }

  lemma RotateIsLastN(h: seq<Entry>, e: Entry)
    requires |h| <= Capacity
    ensures Rotate(h, e) == LastN(h + [e], Capacity)
  {
    var pushed := h + [e];
    if |pushed| > Capacity {
      assert |pushed| - Capacity == 1;
    }
  }

  lemma {:induction false} LastNOfLastN<T>(s: seq<T>, t: seq<T>, n: nat)
    ensures LastN(LastN(s, n) + t, n) == LastN(s + t, n)
  {
    var u := LastN(s, n);
    var left, right := LastN(u + t, n), LastN(s + t, n);
    assert |left| == |right|;
    forall k | 0 <= k < |left|
      ensures left[k] == right[k]
    {
      var j := |u + t| - |left| + k;
      assert left[k] == (u + t)[j];
      if j < |u| {
        assert (u + t)[j] == u[j] == s[|s| - |u| + j];
      } else {
        assert (u + t)[j] == t[j - |u|];
      }
    }
  }

  /** Starting from a window within capacity, any number of midnight jobs
      leave exactly the last seven snapshots of everything ever recorded:
      a first-in, first-out window. */
  lemma {:induction false} WindowKeepsLastSeven(h: seq<Entry>, days: seq<Entry>)
    requires |h| <= Capacity
    ensures RotateAll(h, days) == LastN(h + days, Capacity)
    ensures |RotateAll(h, days)| <= Capacity
    decreases |days|
  {
    if days == [] {
      assert h + days == h;
    } else {
      var pushed := h + [days[0]];
      var h' := Rotate(h, days[0]);
      calc {
        RotateAll(h, days);
        RotateAll(h', days[1..]);
        { RotateIsLastN(h, days[0]); WindowKeepsLastSeven(h', days[1..]); }
        LastN(LastN(pushed, Capacity) + days[1..], Capacity);
        { LastNOfLastN(pushed, days[1..], Capacity); }
        LastN(pushed + days[1..], Capacity);
        { assert pushed + days[1..] == h + days; }
        LastN(h + days, Capacity);
      }
    }
  }

  /** `history.map(x => x.date)`: the chart labels. */
  function Dates(h: seq<Entry>): (r: seq<string>)
    ensures |r| == |h|
    ensures forall i :: 0 <= i < |h| ==> r[i] == h[i].date
  {
    if h == [] then [] else [h[0].date] + Dates(h[1..])
  }

  /** `history.map(x => x.hours)`: the cumulative series. */
  function Hours(h: seq<Entry>): (r: seq<real>)
    ensures |r| == |h|
    ensures forall i :: 0 <= i < |h| ==> r[i] == h[i].hours
  {
    if h == [] then [] else [h[0].hours] + Hours(h[1..])
  }
}
