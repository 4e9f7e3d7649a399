/** The identifiers of sound trigger engines: their order, which maps are built on, and their
    equality. */
module SoundModelUuid {

  type Node = s: seq<nat> | |s| == 6 witness [0, 0, 0, 0, 0, 0]

  datatype Uuid = Uuid(timeLow: nat, timeMid: nat, timeHiAndVersion: nat, clockSeq: nat, node: Node)

  /** The first field, or byte of the node, that differs decides. */
  predicate Less(a: Uuid, b: Uuid) {
    if a.timeLow != b.timeLow then a.timeLow < b.timeLow
    else if a.timeMid != b.timeMid then a.timeMid < b.timeMid
    else if a.timeHiAndVersion != b.timeHiAndVersion then a.timeHiAndVersion < b.timeHiAndVersion
    else if a.clockSeq != b.clockSeq then a.clockSeq < b.clockSeq
    else NodeLess(a.node, b.node, 0)
  }

  /** The comparison of the nodes from byte i on. */
  predicate NodeLess(a: Node, b: Node, i: nat)
    requires i <= 6
    decreases 6 - i
  {
    i < 6 && if a[i] != b[i] then a[i] < b[i] else NodeLess(a, b, i + 1)
  }

  method LessThan(a: Uuid, b: Uuid) returns (less: bool)
    ensures less == Less(a, b)
  {
    if a.timeLow > b.timeLow { return false; } else if a.timeLow < b.timeLow { return true; }
    if a.timeMid > b.timeMid { return false; } else if a.timeMid < b.timeMid { return true; }
    if a.timeHiAndVersion > b.timeHiAndVersion { return false; } else if a.timeHiAndVersion < b.timeHiAndVersion { return true; }
    if a.clockSeq > b.clockSeq { return false; } else if a.clockSeq < b.clockSeq { return true; }
    for i := 0 to 6
      invariant NodeLess(a.node, b.node, 0) == NodeLess(a.node, b.node, i)
    {
      if a.node[i] > b.node[i] { return false; } else if a.node[i] < b.node[i] { return true; }
    }
    less := false;
  }

  method CompareUuid(a: Uuid, b: Uuid) returns (same: bool)
    ensures same <==> a == b
  {
    if b.timeLow != a.timeLow || b.timeMid != a.timeMid || b.timeHiAndVersion != a.timeHiAndVersion
       || b.clockSeq != a.clockSeq {
      return false;
    }
    for i := 0 to 6
      invariant forall j :: 0 <= j < i ==> a.node[j] == b.node[j]
    {
      if b.node[i] != a.node[i] { return false; }
    }
    assert a.node == b.node;
    same := true;
  }

  lemma {:induction false} NodeTrichotomy(a: Node, b: Node, i: nat)
    requires i <= 6
    ensures !(NodeLess(a, b, i) && NodeLess(b, a, i))
    ensures !NodeLess(a, b, i) && !NodeLess(b, a, i) <==> a[i..] == b[i..]
    decreases 6 - i
  {
    if i < 6 {
      NodeTrichotomy(a, b, i + 1);
      assert a[i..] == [a[i]] + a[i + 1..] && b[i..] == [b[i]] + b[i + 1..];
    }
  }

  lemma {:induction false} NodeTransitive(a: Node, b: Node, c: Node, i: nat)
    requires i <= 6 && NodeLess(a, b, i) && NodeLess(b, c, i)
    ensures NodeLess(a, c, i)
    decreases 6 - i
  {
    if a[i] == b[i] == c[i] {
      NodeTransitive(a, b, c, i + 1);
    }
  }

  /** The order is strict and two identifiers are left unordered exactly if they are equal, so a
      lookup in an ordered map is a lookup by equality. */
  lemma UnorderedIffEqual(a: Uuid, b: Uuid)
    ensures !(Less(a, b) && Less(b, a))
    ensures !Less(a, b) && !Less(b, a) <==> a == b
  {
    NodeTrichotomy(a.node, b.node, 0);
    assert a.node[0..] == a.node && b.node[0..] == b.node;
  }

  lemma Transitive(a: Uuid, b: Uuid, c: Uuid)
    requires Less(a, b) && Less(b, c)
    ensures Less(a, c)
  {
    if a.timeLow == b.timeLow == c.timeLow && a.timeMid == b.timeMid == c.timeMid
       && a.timeHiAndVersion == b.timeHiAndVersion == c.timeHiAndVersion && a.clockSeq == b.clockSeq == c.clockSeq {
      NodeTransitive(a.node, b.node, c.node, 0);
    }
  }

  /** The fields in the order in which they count. */
  function Fields(a: Uuid): (r: seq<nat>)
    ensures |r| == 10
  {
    [a.timeLow, a.timeMid, a.timeHiAndVersion, a.clockSeq] + a.node
  }

  predicate DecidedBy(x: seq<nat>, y: seq<nat>, k: nat) {
    k < |x| && k < |y| && x[k] < y[k] && forall j :: 0 <= j < k ==> x[j] == y[j]
  }

  /** The order is lexicographic: the first field that differs decides. */
  lemma LexicographicIff(a: Uuid, b: Uuid)
    ensures Less(a, b) <==> exists k :: DecidedBy(Fields(a), Fields(b), k)
  {
    if Less(a, b) { var k := DecidingField(a, b); }
    if k :| DecidedBy(Fields(a), Fields(b), k) { FieldDecides(a, b, k); }
  }

  lemma NodeFields(a: Uuid)
    ensures Fields(a)[4..] == a.node
  {
  }

  lemma DecidingField(a: Uuid, b: Uuid) returns (k: nat)
    requires Less(a, b)
    ensures DecidedBy(Fields(a), Fields(b), k)
  {
    if a.timeLow != b.timeLow { k := 0; }
    else if a.timeMid != b.timeMid { k := 1; }
    else if a.timeHiAndVersion != b.timeHiAndVersion { k := 2; }
    else if a.clockSeq != b.clockSeq { k := 3; }
    else {
      NodeLexicographicIff(a.node, b.node, 0);
      var n :| 0 <= n < 6 && a.node[n] < b.node[n] && forall j :: 0 <= j < n ==> a.node[j] == b.node[j];
      k := n + 4;
      NodeFields(a);
      NodeFields(b);
      var x, y := Fields(a), Fields(b);
      assert x[k] == x[4..][n] && y[k] == y[4..][n];
      forall j | 0 <= j < k ensures x[j] == y[j] {
        if j >= 4 { assert x[j] == x[4..][j - 4] && y[j] == y[4..][j - 4]; }
      }
    }
  }

  lemma FieldDecides(a: Uuid, b: Uuid, k: nat)
    requires DecidedBy(Fields(a), Fields(b), k)
    ensures Less(a, b)
  {
    var x, y := Fields(a), Fields(b);
    if k > 0 { assert x[0] == y[0]; }
    if k > 1 { assert x[1] == y[1]; }
    if k > 2 { assert x[2] == y[2]; }
    if k > 3 {
      assert x[3] == y[3];
      NodeFields(a);
      NodeFields(b);
      assert x[k] == x[4..][k - 4] && y[k] == y[4..][k - 4];
      forall j | 0 <= j < k - 4 ensures a.node[j] == b.node[j] {
        assert x[j + 4] == y[j + 4] && x[j + 4] == x[4..][j] && y[j + 4] == y[4..][j];
      }
      NodeLexicographicIff(a.node, b.node, 0);
    }
  }

  lemma {:induction false} NodeLexicographicIff(a: Node, b: Node, i: nat)
    requires i <= 6
    ensures NodeLess(a, b, i) <==> exists k :: i <= k < 6 && a[k] < b[k] && forall j :: i <= j < k ==> a[j] == b[j]
    decreases 6 - i
  {
    if i < 6 {
      NodeLexicographicIff(a, b, i + 1);
    }
  }
}
