/** `anonymizeText` of the content script (extension/content.js): every
    detected span is replaced by its type's placeholder, working from the
    last span to the first so that earlier offsets stay valid. */
module Anonymize {
  import opened Wrappers
  import opened Logic
  import opened ContentPolicy

  /** A detected span `[start, end)` of type `typeId`, as the detector returns
      it. */
  datatype Match = Match(typeId: string, start: nat, end: nat)

  function Min(a: nat, b: nat): nat { if a <= b then a else b }

  /** `text.slice(0, m.start) + placeholder + text.slice(m.end)`, offsets past
      the end being clamped as `slice` clamps them. */
  function Splice(text: string, m: Match, dataTypes: DataTypes): string {
    text[..Min(m.start, |text|)] + Placeholder(dataTypes, m.typeId) + text[Min(m.end, |text|)..]
  }

  // ---------------------------------------------------------------------------
  // The sort: stable, by start offset, descending
  // ---------------------------------------------------------------------------

  /** Insert `m` after every element whose start is not smaller, so that
      equal starts keep their input order. */
  function InsertDesc(m: Match, sorted: seq<Match>): (r: seq<Match>)
    ensures multiset(r) == multiset(sorted) + multiset{m}
    ensures |r| == |sorted| + 1
  {
    if sorted == [] then [m]
    else
      assert sorted == [sorted[0]] + sorted[1..];
      if sorted[0].start >= m.start then [sorted[0]] + InsertDesc(m, sorted[1..])
      else [m] + sorted
  }

  /** `[...matches].sort((a, b) => b.start - a.start)`: a stable sort, here as
      an insertion sort (see SortDescStable). */
  function SortDesc(ms: seq<Match>): (r: seq<Match>)
    ensures multiset(r) == multiset(ms)
    ensures |r| == |ms|
  {
    if ms == [] then []
    else
      assert ms == ms[..|ms| - 1] + [ms[|ms| - 1]];
      InsertDesc(ms[|ms| - 1], SortDesc(ms[..|ms| - 1]))
  }

  predicate Descending(s: seq<Match>) {
    forall i, j :: 0 <= i < j < |s| ==> s[i].start >= s[j].start
  }

  lemma {:induction false} InsertDescSorted(m: Match, sorted: seq<Match>)
    requires Descending(sorted)
    ensures Descending(InsertDesc(m, sorted))
  {
    if sorted != [] && sorted[0].start >= m.start {
      InsertDescSorted(m, sorted[1..]);
      var r := InsertDesc(m, sorted[1..]);
      forall x | x in r ensures sorted[0].start >= x.start {
        assert x in multiset(r);
      }
    }
  }

  /** The sort orders by descending start and is a permutation. */
  lemma {:induction false} SortDescSorted(ms: seq<Match>)
    ensures Descending(SortDesc(ms))
    ensures multiset(SortDesc(ms)) == multiset(ms)
  {
    if ms != [] {
      SortDescSorted(ms[..|ms| - 1]);
      InsertDescSorted(ms[|ms| - 1], SortDesc(ms[..|ms| - 1]));
    }
  }

  /** `[m]` when `m` starts at `s`, else nothing. */
  function Only(m: Match, s: int): seq<Match> {
    if m.start == s then [m] else []
  }

  /** The matches of `ms` that start at `s`, in order. */
  function StartingAt(ms: seq<Match>, s: int): seq<Match> {
    if ms == [] then [] else Only(ms[0], s) + StartingAt(ms[1..], s)
  }

  lemma StartingAtOne(x: Match, s: int)
    ensures StartingAt([x], s) == Only(x, s)
  {
    assert [x][1..] == [];
  }

  lemma {:induction false} StartingAtAppend(a: seq<Match>, b: seq<Match>, s: int)
    ensures StartingAt(a + b, s) == StartingAt(a, s) + StartingAt(b, s)
  {
    if a == [] {
      assert a + b == b;
    } else {
      assert (a + b)[1..] == a[1..] + b;
      StartingAtAppend(a[1..], b, s);
    }
  }

  lemma {:induction false} StartingAtNone(ms: seq<Match>, s: int)
    requires forall i :: 0 <= i < |ms| ==> ms[i].start < s
    ensures StartingAt(ms, s) == []
  {
    if ms != [] {
      StartingAtNone(ms[1..], s);
    }
  }

  /** Inserting `m` puts it after every match of equal start. */
  lemma {:induction false} InsertDescStable(m: Match, sorted: seq<Match>, s: int)
    requires Descending(sorted)
    ensures StartingAt(InsertDesc(m, sorted), s) == StartingAt(sorted, s) + Only(m, s)
  {
    if sorted == [] {
      StartingAtOne(m, s);
    } else if sorted[0].start >= m.start {
      var x, rest := sorted[0], sorted[1..];
      assert Descending(rest);
      InsertDescStable(m, rest, s);
      assert InsertDesc(m, sorted) == [x] + InsertDesc(m, rest);
      calc {
        StartingAt(InsertDesc(m, sorted), s);
        { StartingAtAppend([x], InsertDesc(m, rest), s); StartingAtOne(x, s); }
        Only(x, s) + (StartingAt(rest, s) + Only(m, s));
        { ConcatAssoc(Only(x, s), StartingAt(rest, s), Only(m, s)); }
        StartingAt(sorted, s) + Only(m, s);
      }
    } else {
      assert InsertDesc(m, sorted) == [m] + sorted;
      StartingAtAppend([m], sorted, s);
      StartingAtOne(m, s);
      if m.start == s {
        StartingAtNone(sorted, s);
      }
    }
  }

  lemma ConcatAssoc(a: seq<Match>, b: seq<Match>, c: seq<Match>)
    ensures a + (b + c) == (a + b) + c
  {
  }

  /** The sort is stable: the matches that share a start come out in their
      input order. */
  lemma {:induction false} SortDescStable(ms: seq<Match>, s: int)
    ensures StartingAt(SortDesc(ms), s) == StartingAt(ms, s)
  {
    if ms != [] {
      var init, last := ms[..|ms| - 1], ms[|ms| - 1];
      calc {
        StartingAt(SortDesc(ms), s);
        StartingAt(InsertDesc(last, SortDesc(init)), s);
        { SortDescSorted(init); InsertDescStable(last, SortDesc(init), s); }
        StartingAt(SortDesc(init), s) + Only(last, s);
        { SortDescStable(init, s); StartingAtOne(last, s); }
        StartingAt(init, s) + StartingAt([last], s);
        { StartingAtAppend(init, [last], s); }
        StartingAt(init + [last], s);
        { assert init + [last] == ms; }
        StartingAt(ms, s);
      }
    }
  }


  lemma {:induction false} InsertDescDistinct(m: Match, sorted: seq<Match>)
    requires NoDuplicates(sorted) && m !in sorted
    ensures NoDuplicates(InsertDesc(m, sorted))
  {
    if sorted != [] && sorted[0].start >= m.start {
      InsertDescDistinct(m, sorted[1..]);
      var r := InsertDesc(m, sorted[1..]);
      assert sorted[0] !in r by {
        assert sorted[0] !in multiset(sorted[1..]) + multiset{m} by {
          assert sorted == [sorted[0]] + sorted[1..];
        }
      }
    }
  }

  lemma {:induction false} SortDescDistinct(ms: seq<Match>)
    requires NoDuplicates(ms)
    ensures NoDuplicates(SortDesc(ms))
  {
    if ms != [] {
      var init := ms[..|ms| - 1];
      SortDescDistinct(init);
      assert ms[|ms| - 1] !in init;
      assert ms[|ms| - 1] !in SortDesc(init) by {
        assert ms[|ms| - 1] !in multiset(init);
      }
      InsertDescDistinct(ms[|ms| - 1], SortDesc(init));
    }
  }

  // ---------------------------------------------------------------------------
  // anonymizeText
  // ---------------------------------------------------------------------------

  /** The splices applied in list order. */
  function SpliceAll(text: string, sorted: seq<Match>, dataTypes: DataTypes): string
    decreases |sorted|
  {
    if sorted == [] then text else SpliceAll(Splice(text, sorted[0], dataTypes), sorted[1..], dataTypes)
  }

  /** What `anonymizeText` returns; `None` stands for null or undefined
      matches. */
  function Anonymized(text: string, matches: Option<seq<Match>>, dataTypes: DataTypes): string {
    if matches.None? || matches.value == [] then text
    else SpliceAll(text, SortDesc(matches.value), dataTypes)
  }

  /** `anonymizeText`. */
  method AnonymizeText(text: string, matches: Option<seq<Match>>, dataTypes: DataTypes) returns (result: string)
    ensures result == Anonymized(text, matches, dataTypes)
    ensures matches.None? || matches.value == [] ==> result == text
  {
    if matches.None? || |matches.value| == 0 {
      return text;
    }
    var sorted := SortDesc(matches.value);
    result := text;
    var i := 0;
    while i < |sorted|
      invariant 0 <= i <= |sorted|
      invariant SpliceAll(result, sorted[i..], dataTypes) == SpliceAll(text, sorted, dataTypes)
    {
      assert sorted[i..][1..] == sorted[i + 1..];
      var m := sorted[i];
      result := result[..Min(m.start, |result|)] + Placeholder(dataTypes, m.typeId) + result[Min(m.end, |result|)..];
      i := i + 1;
    }
  }

  // ---------------------------------------------------------------------------
  // What the result is, for spans that are in range and do not overlap
  // ---------------------------------------------------------------------------

  /** Non-empty spans inside the text, no two overlapping, none repeated. */
  predicate WellPlaced(text: string, ms: seq<Match>) {
    && NoDuplicates(ms)
    && (forall m :: m in ms ==> m.start < m.end <= |text|)
    && (forall a, b :: a in ms && b in ms && a != b ==> a.end <= b.start || b.end <= a.start)
  }

  /** Spans in ascending order, each starting at or after `from` and ending
      by `n`, each ending before the next begins. */
  predicate AscendingFrom(asc: seq<Match>, from: nat, n: nat) {
    if asc == [] then from <= n
    else from <= asc[0].start < asc[0].end <= n && AscendingFrom(asc[1..], asc[0].end, n)
  }

  /** The reference result, read left to right: the text between spans kept,
      each span replaced by its placeholder. */
  function Redact(text: string, asc: seq<Match>, from: nat, dataTypes: DataTypes): string
    requires AscendingFrom(asc, from, |text|)
  {
    if asc == [] then text[from..]
    else text[from..asc[0].start] + Placeholder(dataTypes, asc[0].typeId)
         + Redact(text, asc[1..], asc[0].end, dataTypes)
  }

  /** Spans in descending order, each one ending before the previous one
      starts, all inside `[0, n)`. */
  predicate DescendingWithin(desc: seq<Match>, n: nat) {
    desc == [] ||
    (desc[0].start < desc[0].end <= n && DescendingWithin(desc[1..], desc[0].start))
  }

  function Reverse(s: seq<Match>): (r: seq<Match>)
    ensures |r| == |s|
  {
    if s == [] then [] else Reverse(s[1..]) + [s[0]]
  }

  lemma {:induction false} DescendingWithinMono(desc: seq<Match>, n: nat, k: nat)
    requires DescendingWithin(desc, n) && n <= k
    ensures DescendingWithin(desc, k)
  {
  }

  /** Sorting well-placed spans by descending start chains them. */
  lemma {:induction false} SortedWellPlacedChain(text: string, d: seq<Match>, n: nat)
    requires Descending(d) && NoDuplicates(d)
    requires forall m :: m in d ==> m.start < m.end <= n
    requires forall a, b :: a in d && b in d && a != b ==> a.end <= b.start || b.end <= a.start
    ensures DescendingWithin(d, n)
  {
    if d != [] {
      forall m | m in d[1..] ensures m.start < m.end <= d[0].start {
        var j :| 0 <= j < |d[1..]| && d[1..][j] == m;
        assert d[j + 1] == m && d[0] != m;
      }
      assert Descending(d[1..]) && NoDuplicates(d[1..]) by {
        forall i, j | 0 <= i < j < |d[1..]| ensures d[1..][i].start >= d[1..][j].start && d[1..][i] != d[1..][j] {
          assert d[1..][i] == d[i + 1] && d[1..][j] == d[j + 1];
        }
      }
      SortedWellPlacedChain(text, d[1..], d[0].start);
    }
  }

  /** Splicing spans that all lie inside `p` leaves whatever follows `p`
      alone. */
  lemma {:induction false} SpliceAllAppend(p: string, q: string, desc: seq<Match>, dataTypes: DataTypes)
    requires DescendingWithin(desc, |p|)
    ensures SpliceAll(p + q, desc, dataTypes) == SpliceAll(p, desc, dataTypes) + q
    decreases |desc|
  {
    if desc != [] {
      var m := desc[0];
      var ph := Placeholder(dataTypes, m.typeId);
      assert Min(m.start, |p + q|) == m.start && Min(m.start, |p|) == m.start;
      assert Min(m.end, |p + q|) == m.end && Min(m.end, |p|) == m.end;
      assert (p + q)[..m.start] == p[..m.start];
      assert (p + q)[m.end..] == p[m.end..] + q;
      var p' := p[..m.start] + ph + p[m.end..];
      assert Splice(p + q, m, dataTypes) == p' + q;
      DescendingWithinMono(desc[1..], m.start, |p'|);
      SpliceAllAppend(p', q, desc[1..], dataTypes);
    }
  }

  lemma {:induction false} AscendingSnoc(asc: seq<Match>, m: Match, from: nat, n: nat)
    requires AscendingFrom(asc, from, m.start) && m.start < m.end <= n
    ensures AscendingFrom(asc + [m], from, n)
  {
    if asc != [] {
      assert (asc + [m])[1..] == asc[1..] + [m];
      AscendingSnoc(asc[1..], m, asc[0].end, n);
    }
  }

  lemma {:induction false} DescendingReversed(desc: seq<Match>, n: nat)
    requires DescendingWithin(desc, n)
    ensures AscendingFrom(Reverse(desc), 0, n)
  {
    if desc != [] {
      DescendingReversed(desc[1..], desc[0].start);
      AscendingSnoc(Reverse(desc[1..]), desc[0], 0, n);
    }
  }

  /** The inductive step of `RedactSnoc`: the first span is kept in front. */
  lemma RedactSnocStep(text: string, asc: seq<Match>, m: Match, from: nat, dataTypes: DataTypes)
    requires asc != []
    requires AscendingFrom(asc, from, m.start) && m.start < m.end <= |text|
    requires AscendingFrom(asc + [m], from, |text|)
    requires AscendingFrom(asc[1..] + [m], asc[0].end, |text|)
    requires Redact(text, asc[1..] + [m], asc[0].end, dataTypes)
             == Redact(text[..m.start], asc[1..], asc[0].end, dataTypes) + Placeholder(dataTypes, m.typeId) + text[m.end..]
    ensures Redact(text, asc + [m], from, dataTypes)
            == Redact(text[..m.start], asc, from, dataTypes) + Placeholder(dataTypes, m.typeId) + text[m.end..]
  {
    var a := asc[0];
    var head, pa, ph := text[..m.start], Placeholder(dataTypes, a.typeId), Placeholder(dataTypes, m.typeId);
    var x := text[from..a.start];
    var y := Redact(head, asc[1..], a.end, dataTypes);
    var z := text[m.end..];
    assert Redact(text, asc + [m], from, dataTypes) == x + pa + (y + ph + z) by {
      assert (asc + [m])[0] == a;
      assert (asc + [m])[1..] == asc[1..] + [m];
    }
    assert Redact(head, asc, from, dataTypes) == x + pa + y by {
      assert head[from..a.start] == x;
    }
    Regroup(x, pa, y, ph, z);
  }

  lemma Regroup(x: string, pa: string, y: string, ph: string, z: string)
    ensures x + pa + (y + ph + z) == (x + pa + y) + ph + z
  {
  }

  /** Cutting the text at the start of the last span. */
  lemma {:induction false} RedactSnoc(text: string, asc: seq<Match>, m: Match, from: nat, dataTypes: DataTypes)
    requires AscendingFrom(asc, from, m.start) && m.start < m.end <= |text|
    requires AscendingFrom(asc + [m], from, |text|)
    ensures Redact(text, asc + [m], from, dataTypes)
            == Redact(text[..m.start], asc, from, dataTypes) + Placeholder(dataTypes, m.typeId) + text[m.end..]
  {
    if asc == [] {
      assert [m][1..] == [];
      assert text[..m.start][from..] == text[from..m.start];
    } else {
      assert (asc + [m])[1..] == asc[1..] + [m];
      RedactSnoc(text, asc[1..], m, asc[0].end, dataTypes);
      RedactSnocStep(text, asc, m, from, dataTypes);
    }
  }

  /** Splicing chained spans from the last to the first gives the
      left-to-right reference result. */
  lemma {:induction false} SpliceAllIsRedact(text: string, desc: seq<Match>, dataTypes: DataTypes)
    requires DescendingWithin(desc, |text|)
    ensures AscendingFrom(Reverse(desc), 0, |text|)
    ensures SpliceAll(text, desc, dataTypes) == Redact(text, Reverse(desc), 0, dataTypes)
  {
    DescendingReversed(desc, |text|);
    if desc != [] {
      var m := desc[0];
      var ph := Placeholder(dataTypes, m.typeId);
      var head := text[..m.start];
      assert Splice(text, m, dataTypes) == head + (ph + text[m.end..]);
      SpliceAllAppend(head, ph + text[m.end..], desc[1..], dataTypes);
      SpliceAllIsRedact(head, desc[1..], dataTypes);
      DescendingReversed(desc[1..], m.start);
      AscendingSnoc(Reverse(desc[1..]), m, 0, |text|);
      RedactSnoc(text, Reverse(desc[1..]), m, 0, dataTypes);
    }
  }

  /** For spans inside the text that do not overlap, given in any order, the
      result replaces each span by its type's placeholder and keeps every other
      character: it is the left-to-right reference over the spans in
      ascending order, which are a rearrangement of the input. */
  lemma AnonymizedReplacesSpans(text: string, ms: seq<Match>, dataTypes: DataTypes)
    requires WellPlaced(text, ms)
    ensures var asc := Reverse(SortDesc(ms));
            && multiset(asc) == multiset(ms)
            && AscendingFrom(asc, 0, |text|)
            && Anonymized(text, Some(ms), dataTypes) == Redact(text, asc, 0, dataTypes)
  {
    var d := SortDesc(ms);
    SortDescSorted(ms);
    SortDescDistinct(ms);
    forall m | m in d ensures m in ms {
      assert m in multiset(d);
    }
    SortedWellPlacedChain(text, d, |text|);
    SpliceAllIsRedact(text, d, dataTypes);
    ReverseMultiset(d);
  }

  lemma {:induction false} ReverseMultiset(s: seq<Match>)
    ensures multiset(Reverse(s)) == multiset(s)
  {
    if s != [] {
      ReverseMultiset(s[1..]);
      assert s == [s[0]] + s[1..];
    }
  }

  /** An e-mail address in the middle of a sentence. */
  lemma AnonymizeEmailInSentence(dataTypes: DataTypes)
    requires "EMAIL" in dataTypes && dataTypes["EMAIL"].placeholder == "[EMAIL]"
    ensures Anonymized("contact a@b.com now", Some([Match("EMAIL", 8, 15)]), dataTypes) == "contact [EMAIL] now"
  {
    var text := "contact a@b.com now";
    var m := Match("EMAIL", 8, 15);
    assert SortDesc([m]) == [m];
    assert Splice(text, m, dataTypes) == text[..8] + "[EMAIL]" + text[15..];
  }
}
