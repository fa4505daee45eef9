/** Small shared vocabulary: an option type and facts about integer intervals and sequences. */
module Collections {

  datatype Option<+T> = None | Some(value: T)

  function DropLast<T>(s: seq<T>): seq<T>
    requires s != []
  {
    s[..|s| - 1]
  }

  function Last<T>(s: seq<T>): T
    requires s != []
  {
    s[|s| - 1]
  }

  function Elements<T(==)>(s: seq<T>): set<T> {
    set x | x in s
  }

  lemma Associative<T>(a: seq<T>, b: seq<T>, c: seq<T>)
    ensures a + b + c == a + (b + c)
  {
  }

  /** The integers from lo up to, but not including, hi. */
  ghost function Interval(lo: nat, hi: nat): (s: set<nat>)
    ensures forall x :: x in s <==> lo <= x < hi
    ensures |s| == if lo <= hi then hi - lo else 0
    decreases hi
  {
    if hi <= lo then {} else Interval(lo, hi - 1) + {hi - 1}
  }

  /** How often x occurs in s. */
  function Times(s: seq<string>, id: string): nat {
    if s == [] then 0 else Times(DropLast(s), id) + if Last(s) == id then 1 else 0
  }

  lemma {:induction false} TimesSnoc(s: seq<string>, x: string, id: string)
    ensures Times(s + [x], id) == Times(s, id) + if x == id then 1 else 0
  {
    assert DropLast(s + [x]) == s;
  }
}
