/** Lists whose elements carry integer keys (entity ids): keys increasing from left to
    right, keys below a bound, and the facts that keep these properties under the list
    operations of a tick. */
module Lists {

  /** The keys `id` gives to the elements of `s` strictly increase from left to right. */
  ghost predicate Increasing<T>(s: seq<T>, id: T -> int)
  {
    forall i, j :: 0 <= i < j < |s| ==> id(s[i]) < id(s[j])
  }

  /** Every key in `s` is below `bound`. */
  ghost predicate Below<T>(s: seq<T>, id: T -> int, bound: int)
  {
    forall t :: t in s ==> id(t) < bound
  }

  /** The keys of the elements of `s`. */
  ghost function Keys<T>(s: seq<T>, id: T -> int): set<int>
  {
    set t | t in s :: id(t)
  }

  /** One step of a `mapNotNull` that keeps keys: if the head of an increasing list is
      dropped or kept under its own key, and the rest maps to an increasing list of keys
      taken from the tail, the result is increasing. */
  lemma PrependIncreasing<T>(s: seq<T>, head: seq<T>, rest: seq<T>, id: T -> int)
    requires s != [] && Increasing(s, id)
    requires |head| <= 1 && (head != [] ==> id(head[0]) == id(s[0]))
    requires Increasing(rest, id)
    requires forall u :: u in rest ==> exists t :: t in s[1..] && id(t) == id(u)
    ensures Increasing(head + rest, id)
  {
    forall u | u in rest ensures id(s[0]) < id(u) {
      var t :| t in s[1..] && id(t) == id(u);
      var k :| 0 <= k < |s[1..]| && s[1..][k] == t;
      assert s[k + 1] == t;
    }
    if head != [] {
      AppendIncreasing(head, rest, id, id(s[0]) + 1);
    } else {
      assert head + rest == rest;
    }
  }

  /** Appending a list whose keys all exceed those of an increasing list keeps it increasing. */
  lemma AppendIncreasing<T>(a: seq<T>, b: seq<T>, id: T -> int, bound: int)
    requires Increasing(a, id) && Below(a, id, bound)
    requires Increasing(b, id)
    requires forall t :: t in b ==> bound <= id(t)
    ensures Increasing(a + b, id)
  {
    forall i, j | 0 <= i < j < |a + b| ensures id((a + b)[i]) < id((a + b)[j]) {
      if j < |a| {
      } else if i < |a| {
        assert (a + b)[i] in a && (a + b)[j] in b;
      } else {
        assert (a + b)[i] == b[i - |a|] && (a + b)[j] == b[j - |a|];
      }
    }
  }
}
