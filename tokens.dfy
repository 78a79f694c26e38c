/**
 * The array operations the class-name composition is built from:
 * `filter(Boolean)` over candidate class names, `join(sep)` of the kept
 * tokens, and, as the inverse of `join`, `split` on a single character.
 */
module Tokens {
  import opened Wrappers

  /** JavaScript truthiness of a candidate: `undefined` and `""` are falsy. */
  predicate Truthy(c: Option<string>) {
    c.Some? && c.value != ""
  }

  /** The tokens one candidate contributes after `filter(Boolean)`. */
  function Slot(c: Option<string>): seq<string> {
    if Truthy(c) then [c.value] else []
  }

  /** `cs.filter(Boolean)`: the truthy candidates, in their original order. */
  function KeepTruthy(cs: seq<Option<string>>): (ts: seq<string>)
    ensures |ts| <= |cs|
    ensures forall i :: 0 <= i < |ts| ==> ts[i] != ""
    ensures ts == [] <==> forall i :: 0 <= i < |cs| ==> !Truthy(cs[i])
  {
    if cs == [] then [] else Slot(cs[0]) + KeepTruthy(cs[1..])
  }

  /** `ts.join(sep)`: the tokens with `sep` between consecutive ones. */
  function Join(ts: seq<string>, sep: string): string {
    if |ts| == 0 then ""
    else if |ts| == 1 then ts[0]
    else ts[0] + sep + Join(ts[1..], sep)
  }

  /** `s.split(c)`: the pieces between occurrences of `c`, empty ones included. */
  function Split(s: string, c: char): (r: seq<string>)
    ensures |r| >= 1
    ensures forall i :: 0 <= i < |r| ==> c !in r[i]
  {
    if s == [] then [""]
    else
      var rest := Split(s[1..], c);
      if s[0] == c then [""] + rest
      else [[s[0]] + rest[0]] + rest[1..]
  }

  /** No separator at either end and never two separators in a row. */
  predicate WellSeparated(s: string, c: char) {
    (|s| > 0 ==> s[0] != c && s[|s| - 1] != c) &&
    forall k :: 0 <= k < |s| - 1 ==> s[k] == c ==> s[k + 1] != c
  }

  /** Filtering distributes over concatenation: order is kept, nothing is moved. */
  lemma {:induction false} KeepTruthyAppend(a: seq<Option<string>>, b: seq<Option<string>>)
    ensures KeepTruthy(a + b) == KeepTruthy(a) + KeepTruthy(b)
  {
    if a == [] {
      assert a + b == b;
    } else {
      assert (a + b)[0] == a[0];
      assert (a + b)[1..] == a[1..] + b;
      KeepTruthyAppend(a[1..], b);
    }
  }

  /** One candidate filters to its own slot. */
  lemma KeepTruthyOne(c: Option<string>)
    ensures KeepTruthy([c]) == Slot(c)
  {
    assert [c][1..] == [];
  }

  /** A token list joins to the empty string exactly when it is empty. */
  lemma JoinEmptyIff(ts: seq<string>, sep: string)
    requires forall i :: 0 <= i < |ts| ==> ts[i] != ""
    ensures Join(ts, sep) == "" <==> ts == []
  {
    if |ts| >= 2 {
      assert |Join(ts, sep)| >= |ts[0]|;
    }
  }

  /** Appending one token adds exactly one separator before it. */
  lemma {:induction false} JoinAppend(ts: seq<string>, t: string, sep: string)
    requires ts != []
    ensures Join(ts + [t], sep) == Join(ts, sep) + sep + t
  {
    if |ts| == 1 {
      assert (ts + [t])[1..] == [t];
    } else {
      assert (ts + [t])[1..] == ts[1..] + [t];
      JoinAppend(ts[1..], t, sep);
    }
  }

  /** A separator-free prefix is split off as one piece. */
  lemma {:induction false} SplitAt(t: string, u: string, c: char)
    requires c !in t
    ensures Split(t + [c] + u, c) == [t] + Split(u, c)
  {
    var s := t + [c] + u;
    if t == [] {
      assert s[1..] == u;
    } else {
      assert s[0] == t[0];
      assert s[1..] == t[1..] + [c] + u;
      SplitAt(t[1..], u, c);
      assert [t[0]] + t[1..] == t;
    }
  }

  /** A string without the separator splits into itself. */
  lemma {:induction false} SplitWithout(t: string, c: char)
    requires c !in t
    ensures Split(t, c) == [t]
  {
    if t != [] {
      SplitWithout(t[1..], c);
      assert [t[0]] + t[1..] == t;
    }
  }

  /**
   * Round trip: splitting a join recovers the tokens, provided no token holds
   * the separator and there is at least one token (`"".split(c)` is `[""]`).
   */
  lemma {:induction false} SplitJoin(ts: seq<string>, c: char)
    requires ts != []
    requires forall i :: 0 <= i < |ts| ==> c !in ts[i]
    ensures Split(Join(ts, [c]), c) == ts
  {
    if |ts| == 1 {
      SplitWithout(ts[0], c);
    } else {
      SplitJoin(ts[1..], c);
      SplitAt(ts[0], Join(ts[1..], [c]), c);
      assert [ts[0]] + ts[1..] == ts;
    }
  }

  /** Round trip the other way: joining the pieces of a split gives the string back. */
  lemma {:induction false} JoinSplit(s: string, c: char)
    ensures Join(Split(s, c), [c]) == s
  {
    if s != [] {
      var rest := Split(s[1..], c);
      JoinSplit(s[1..], c);
      if s[0] == c {
        assert ([""] + rest)[1..] == rest;
      } else {
        var r := [[s[0]] + rest[0]] + rest[1..];
        assert r[1..] == rest[1..];
        if |rest| > 1 {
          assert rest == [rest[0]] + rest[1..];
          assert Join(rest, [c]) == rest[0] + [c] + Join(rest[1..], [c]);
        }
        assert [s[0]] + s[1..] == s;
      }
    }
  }

  /**
   * Joining non-empty, separator-free tokens never leaves a separator at
   * either end or two separators in a row.
   */
  lemma {:induction false} JoinWellSeparated(ts: seq<string>, c: char)
    requires forall i :: 0 <= i < |ts| ==> ts[i] != "" && c !in ts[i]
    ensures WellSeparated(Join(ts, [c]), c)
  {
    if |ts| >= 2 {
      var t, j := ts[0], Join(ts[1..], [c]);
      JoinWellSeparated(ts[1..], c);
      JoinEmptyIff(ts[1..], [c]);
      var s := t + [c] + j;
      assert Join(ts, [c]) == s;
      assert s[0] == t[0] && s[|s| - 1] == j[|j| - 1];
      forall k | 0 <= k < |s| - 1
        ensures s[k] == c ==> s[k + 1] != c
      {
        if k < |t| {
          assert s[k] == t[k];
        } else if k == |t| {
          assert s[k + 1] == j[0];
        } else {
          assert s[k] == j[k - |t| - 1] && s[k + 1] == j[k - |t|];
        }
      }
    }
  }

  /** Between n separator-free tokens the join holds exactly n - 1 separators. */
  lemma {:induction false} JoinSeparatorCount(ts: seq<string>, c: char)
    requires ts != []
    requires forall i :: 0 <= i < |ts| ==> c !in ts[i]
    ensures multiset(Join(ts, [c]))[c] == |ts| - 1
  {
    assert c !in multiset(ts[0]);
    if |ts| >= 2 {
      JoinSeparatorCount(ts[1..], c);
      assert multiset(ts[0] + [c] + Join(ts[1..], [c]))
        == multiset(ts[0]) + multiset([c]) + multiset(Join(ts[1..], [c]));
    }
  }
}
