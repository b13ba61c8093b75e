/** The JavaScript `Set` of strings both filter forms use to toggle a topic:
    it keeps the first occurrence of each value, in insertion order, and
    `Array.from` gives the values back in that order. */
module TopicSet {

  predicate Distinct(s: seq<string>) {
    forall i, j :: 0 <= i < j < |s| ==> s[i] != s[j]
  }

  /** `new Set(s)`: the first occurrence of every value, in order. */
  function Dedup(s: seq<string>): (r: seq<string>)
    ensures forall x :: x in r <==> x in s
    ensures Distinct(r)
  {
    if s == [] then []
    else
      var init := Dedup(s[..|s| - 1]);
      var last := s[|s| - 1];
      assert s == s[..|s| - 1] + [last];
      if last in init then init else init + [last]
  }

  lemma {:induction false} DedupDistinct(s: seq<string>)
    requires Distinct(s)
    ensures Dedup(s) == s
  {
    if s != [] {
      var init := s[..|s| - 1];
      DedupDistinct(init);
      assert s == init + [s[|s| - 1]];
    }
  }

  /** `delete(x)`: every value but `x`, in order. */
  function Remove(s: seq<string>, x: string): (r: seq<string>)
    ensures forall y :: y in r <==> y in s && y != x
  {
    if s == [] then []
    else (if s[0] == x then [] else [s[0]]) + Remove(s[1..], x)
  }

  lemma {:induction false} RemoveDistinct(s: seq<string>, x: string)
    requires Distinct(s)
    ensures Distinct(Remove(s, x))
  {
    if s != [] {
      var tail := s[1..];
      assert Distinct(tail) by {
        forall i, j | 0 <= i < j < |tail| ensures tail[i] != tail[j] {
          assert tail[i] == s[i + 1] && tail[j] == s[j + 1];
        }
      }
      RemoveDistinct(tail, x);
      var rest := Remove(tail, x);
      if s[0] != x {
        forall i | 0 <= i < |tail|
          ensures tail[i] != s[0]
        {
          assert tail[i] == s[i + 1];
        }
        var r := [s[0]] + rest;
        assert Remove(s, x) == r;
        forall i, j | 0 <= i < j < |r| ensures r[i] != r[j] {
          if i > 0 {
            assert r[i] == rest[i - 1] && r[j] == rest[j - 1];
          } else {
            assert r[j] == rest[j - 1] && r[j] in rest;
          }
        }
      }
    }
  }

  lemma {:induction false} RemoveAbsent(s: seq<string>, x: string)
    requires x !in s
    ensures Remove(s, x) == s
  {
    if s != [] {
      RemoveAbsent(s[1..], x);
      assert [s[0]] + s[1..] == s;
    }
  }

  /** A `Set` of strings. */
  class StringSet {
    var elems: seq<string>

    constructor (init: seq<string>)
      ensures elems == Dedup(init)
    {
      elems := Dedup(init);
    }

    function Has(x: string): bool
      reads this
    {
      x in elems
    }

    method Add(x: string)
      modifies this
      ensures elems == if x in old(elems) then old(elems) else old(elems) + [x]
    {
      if x !in elems {
        elems := elems + [x];
      }
    }

    method Delete(x: string)
      modifies this
      ensures elems == Remove(old(elems), x)
    {
      elems := Remove(elems, x);
    }
  }

  /** The topics after a toggle. */
  function Toggled(topics: seq<string>, topic: string): seq<string> {
    var u := Dedup(topics);
    if topic in u then Remove(u, topic) else u + [topic]
  }

  /** `toggleTopic(topic)`: copy the topics into a `Set`, delete the topic if
      it is there and add it otherwise, and read the set back. */
  method ToggleTopic(topics: seq<string>, topic: string) returns (next: seq<string>)
    ensures next == Toggled(topics, topic)
  {
    var selected := new StringSet(topics);
    if selected.Has(topic) {
      selected.Delete(topic);
    } else {
      selected.Add(topic);
    }
    next := selected.elems;
  }

  /** A toggle flips the topic's membership, keeps every other topic's, and
      never produces a duplicate. */
  lemma ToggledMembers(topics: seq<string>, topic: string)
    ensures topic in Toggled(topics, topic) <==> topic !in topics
    ensures forall x :: x != topic ==> (x in Toggled(topics, topic) <==> x in topics)
    ensures Distinct(Toggled(topics, topic))
  {
    var u := Dedup(topics);
    if topic in u {
      RemoveDistinct(u, topic);
    }
  }

  /** On a list without duplicates, an absent topic is appended at the end
      and a present one is removed with the others keeping their order. */
  lemma ToggledOrder(topics: seq<string>, topic: string)
    requires Distinct(topics)
    ensures topic !in topics ==> Toggled(topics, topic) == topics + [topic]
    ensures topic in topics ==> Toggled(topics, topic) == Remove(topics, topic)
  {
    DedupDistinct(topics);
  }

  /** Toggling twice restores every topic's membership, and restores the very
      list when the topic was absent. */
  lemma ToggleTwice(topics: seq<string>, topic: string)
    ensures forall x :: x in Toggled(Toggled(topics, topic), topic) <==> x in topics
    ensures Distinct(topics) && topic !in topics ==> Toggled(Toggled(topics, topic), topic) == topics
  {
    var once := Toggled(topics, topic);
    ToggledMembers(topics, topic);
    ToggledMembers(once, topic);
    if Distinct(topics) && topic !in topics {
      ToggledOrder(topics, topic);
      ToggledOrder(once, topic);
      assert Remove(once, topic) == Remove(topics, topic) + Remove([topic], topic) by {
        RemoveConcat(topics, [topic], topic);
      }
      RemoveAbsent(topics, topic);
      assert Remove([topic], topic) == [];
    }
  }

  lemma {:induction false} RemoveConcat(a: seq<string>, b: seq<string>, x: string)
    ensures Remove(a + b, x) == Remove(a, x) + Remove(b, x)
  {
    if a == [] {
      assert a + b == b;
    } else {
      assert (a + b)[1..] == a[1..] + b;
      RemoveConcat(a[1..], b, x);
    }
  }
}
