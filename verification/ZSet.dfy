/** A Redis sorted set: members with integer scores, ordered by score and then by member. */
module ZSet {
  import opened Sets
  import opened Strings

  type ZSet = map<string, int>

  /** The order Redis keeps: by score, ties by member. */
  predicate Before(z: ZSet, a: string, b: string)
    requires a in z && b in z
  {
    z[a] < z[b] || (z[a] == z[b] && Less(a, b))
  }

  lemma BeforeTotal(z: ZSet, a: string, b: string)
    requires a in z && b in z
    ensures Before(z, a, b) <==> a != b && !Before(z, b, a)
  {
    LessTrichotomy(a, b);
  }

  lemma BeforeTransitive(z: ZSet, a: string, b: string, c: string)
    requires a in z && b in z && c in z && Before(z, a, b) && Before(z, b, c)
    ensures Before(z, a, c)
  {
    if z[a] == z[b] == z[c] { LessTransitive(a, b, c); }
  }

  /** What BZPOPMIN answers. */
  predicate IsMin(z: ZSet, a: string)
  {
    a in z && forall b :: b in z && b != a ==> Before(z, a, b)
  }

  function Predecessors(z: ZSet, a: string): set<string>
    requires a in z
  {
    set b | b in z && Before(z, b, a)
  }

  /** ZREMRANGEBYRANK key n -1: only the n members of lowest rank stay. */
  function KeepLowest(z: ZSet, n: nat): ZSet
  {
    map a | a in z && |Predecessors(z, a)| < n :: z[a]
  }

  lemma {:induction false} MinExists(z: ZSet, among: set<string>) returns (a: string)
    requires among <= z.Keys && among != {}
    ensures a in among && forall b :: b in among && b != a ==> Before(z, a, b)
  {
    var x :| x in among;
    var rest := among - {x};
    assert among == {x} + rest;
    a := x;
    if rest != {} {
      var m := MinExists(z, rest);
      BeforeTotal(z, x, m);
      if Before(z, m, x) { a := m; }
      forall b | b in among && b != a ensures Before(z, a, b) {
        if b != m && a == x { BeforeTransitive(z, x, m, b); }
      }
    }
  }

  lemma {:induction false} MaxExists(z: ZSet, among: set<string>) returns (a: string)
    requires among <= z.Keys && among != {}
    ensures a in among && forall b :: b in among && b != a ==> Before(z, b, a)
  {
    var x :| x in among;
    if among == {x} {
      a := x;
    } else {
      var rest := among - {x};
      assert among == {x} + rest;
      a := MaxExists(z, rest);
      BeforeTotal(z, x, a);
      if Before(z, a, x) {
        forall b | b in among && b != x ensures Before(z, b, x) {
          if b != a { BeforeTransitive(z, b, a, x); }
        }
        a := x;
      }
    }
  }

  /** Trimming leaves at most n members, every one of them before every member it dropped,
      and drops nothing while the set has at most n. */
  lemma TrimIsPrefix(z: ZSet, n: nat)
    ensures |KeepLowest(z, n)| <= n
    ensures forall a, b :: a in KeepLowest(z, n) && b in z && b !in KeepLowest(z, n) ==> Before(z, a, b)
    ensures |z| <= n ==> KeepLowest(z, n) == z
  {
    var kept := KeepLowest(z, n);
    forall a, b | a in kept && b in z && b !in kept ensures Before(z, a, b) {
      BeforeTotal(z, a, b);
      if !Before(z, a, b) {
        PredecessorsGrow(z, b, a);
      }
    }
    if kept.Keys != {} {
      // all kept members but the last come before the last one
      var last := MaxExists(z, kept.Keys);
      assert kept.Keys <= Predecessors(z, last) + {last};
      SubsetSize(kept.Keys - {last}, Predecessors(z, last));
      assert |kept.Keys| == |kept| == |kept.Keys - {last}| + 1;
    }
    if |z| <= n {
      forall a | a in z ensures a in kept {
        BeforeTotal(z, a, a);
        SubsetSize(Predecessors(z, a), z.Keys - {a});
        assert |z.Keys| == |z|;
      }
    }
  }

  lemma PredecessorsGrow(z: ZSet, a: string, b: string)
    requires a in z && b in z && (a == b || Before(z, a, b))
    ensures |Predecessors(z, a)| <= |Predecessors(z, b)|
  {
    forall c | c in Predecessors(z, a) ensures c in Predecessors(z, b) {
      if a != b { BeforeTransitive(z, c, a, b); }
    }
    SubsetSize(Predecessors(z, a), Predecessors(z, b));
  }
}
