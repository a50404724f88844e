/**
 * The comma-joined id list that the multi-id lookup sends as its `ids`
 * parameter, and the field split that inverts it.
 */
module IdList {

  /** The ids in order, with one comma between neighbours and none at either end. */
  function Join(ids: seq<string>): (s: string)
    ensures |s| == if ids == [] then 0 else TotalLength(ids) + |ids| - 1
  {
    if |ids| == 0 then ""
    else if |ids| == 1 then ids[0]
    else Join(ids[..|ids| - 1]) + "," + ids[|ids| - 1]
  }

  /** The summed length of the ids. */
  function TotalLength(ids: seq<string>): nat
  {
    if ids == [] then 0 else TotalLength(ids[..|ids| - 1]) + |ids[|ids| - 1]|
  }

  predicate NoCommas(ids: seq<string>) {
    forall i :: 0 <= i < |ids| ==> ',' !in ids[i]
  }

  /** The index of the last comma in `s`, or -1 when there is none. */
  function LastComma(s: string): (k: int)
    ensures -1 <= k < |s|
    ensures k >= 0 ==> s[k] == ','
    ensures forall j :: k < j < |s| ==> s[j] != ','
  {
    if |s| == 0 then -1
    else if s[|s| - 1] == ',' then |s| - 1
    else LastComma(s[..|s| - 1])
  }

  /** Every comma-separated field of `s`, empty fields included. */
  function Split(s: string): (parts: seq<string>)
    ensures |parts| > 0
    decreases |s|
  {
    var k := LastComma(s);
    if k < 0 then [s] else Split(s[..k]) + [s[k + 1..]]
  }

  /** Read from the front: the first id, one comma, then the join of the rest. */
  lemma {:induction false} JoinCons(ids: seq<string>)
    requires |ids| >= 2
    ensures Join(ids) == ids[0] + "," + Join(ids[1..])
  {
    if |ids| > 2 {
      var init := ids[..|ids| - 1];
      JoinCons(init);
      assert init[1..] == ids[1..][..|ids| - 2];
    }
  }

  /** The join starts with the first id and ends with the last. */
  lemma {:induction false} JoinEnds(ids: seq<string>)
    requires |ids| > 0
    ensures |Join(ids)| >= |ids[0]| && Join(ids)[..|ids[0]|] == ids[0]
    ensures |Join(ids)| >= |ids[|ids| - 1]| && Join(ids)[|Join(ids)| - |ids[|ids| - 1]|..] == ids[|ids| - 1]
  {
    if |ids| >= 2 {
      JoinCons(ids);
    }
  }

  /** With comma-free ids, the join holds exactly one comma fewer than there are ids. */
  lemma {:induction false} JoinCommaCount(ids: seq<string>)
    requires |ids| > 0 && NoCommas(ids)
    ensures multiset(Join(ids))[','] == |ids| - 1
  {
    if |ids| >= 2 {
      var init := ids[..|ids| - 1];
      JoinCommaCount(init);
      assert multiset(ids[|ids| - 1])[','] == 0;
      assert multiset(Join(init) + "," + ids[|ids| - 1])
          == multiset(Join(init)) + multiset(",") + multiset(ids[|ids| - 1]);
    } else {
      assert multiset(ids[0])[','] == 0;
    }
  }

  /** A comma-free string has no last comma. */
  lemma LastCommaNone(s: string)
    requires ',' !in s
    ensures LastComma(s) == -1
  {
  }

  /** Splitting the joined ids recovers them, in order, when no id holds a comma. */
  lemma {:induction false} SplitJoin(ids: seq<string>)
    requires |ids| > 0 && NoCommas(ids)
    ensures Split(Join(ids)) == ids
  {
    if |ids| == 1 {
      LastCommaNone(ids[0]);
    } else {
      var init, last := ids[..|ids| - 1], ids[|ids| - 1];
      var j := Join(init);
      var s := j + "," + last;
      assert s == Join(ids);
      var p := |j|;
      assert s[p] == ',';
      var k := LastComma(s);
      assert k == p;
      assert s[..k] == j;
      assert s[k + 1..] == last;
      SplitJoin(init);
      assert init + [last] == ids;
    }
  }

  /** Joining the fields of any string gives the string back. */
  lemma {:induction false} JoinSplit(s: string)
    ensures Join(Split(s)) == s
    decreases |s|
  {
    var k := LastComma(s);
    if k >= 0 {
      var front := Split(s[..k]);
      JoinSplit(s[..k]);
      var parts := front + [s[k + 1..]];
      assert parts[..|parts| - 1] == front;
      assert s[..k] + "," + s[k + 1..] == s;
    }
  }
}
