/**
 * Ranking responses by stated confidence, highest first, with ties kept in
 * input order (a stable descending sort), and taking the first three.
 * Responses are ranked by index, so the tie rule is an order on indices.
 */
module Ranking {
  import opened Responses

  /** Response `i` is ranked before response `j`. */
  predicate Precedes(rs: seq<AgentResponse>, i: nat, j: nat)
    requires i < |rs| && j < |rs|
  {
    rs[i].confidence > rs[j].confidence || (rs[i].confidence == rs[j].confidence && i < j)
  }

  /** Every element of `s` is an index of `rs`. */
  predicate Indices(rs: seq<AgentResponse>, s: seq<nat>)
  {
    forall k :: 0 <= k < |s| ==> s[k] < |rs|
  }

  /** `s` lists indices of `rs` in ranking order. */
  predicate Ranked(rs: seq<AgentResponse>, s: seq<nat>)
  {
    Indices(rs, s) && forall a, b :: 0 <= a < b < |s| ==> Precedes(rs, s[a], s[b])
  }

  /** Inserts index `j` in front of the first index it precedes. */
  function Insert(rs: seq<AgentResponse>, s: seq<nat>, j: nat): (t: seq<nat>)
    requires j < |rs| && Indices(rs, s)
    ensures multiset(t) == multiset(s) + multiset{j}
    ensures |t| == |s| + 1
    ensures Indices(rs, t)
    decreases |s|
  {
    if s == [] then [j]
    else if Precedes(rs, j, s[0]) then [j] + s
    else
      assert s == [s[0]] + s[1..];
      [s[0]] + Insert(rs, s[1..], j)
  }

  /** Precedes is transitive. */
  lemma PrecedesTransitive(rs: seq<AgentResponse>, i: nat, j: nat, k: nat)
    requires i < |rs| && j < |rs| && k < |rs|
    requires Precedes(rs, i, j) && Precedes(rs, j, k)
    ensures Precedes(rs, i, k)
  {
  }

  /** Inserting a new index into a ranked list keeps it ranked. */
  lemma {:induction false} InsertKeepsRanked(rs: seq<AgentResponse>, s: seq<nat>, j: nat)
    requires j < |rs| && Ranked(rs, s) && j !in s
    ensures Ranked(rs, Insert(rs, s, j))
    decreases |s|
  {
    if s != [] {
      if Precedes(rs, j, s[0]) {
        PrependKeepsRanked(rs, s, j);
      } else {
        InsertKeepsRanked(rs, s[1..], j);
        InsertBehindKeepsRanked(rs, s, j);
      }
    }
  }

  /** An index that precedes the head of a ranked list precedes all of it. */
  lemma PrependKeepsRanked(rs: seq<AgentResponse>, s: seq<nat>, j: nat)
    requires j < |rs| && Ranked(rs, s) && s != [] && Precedes(rs, j, s[0])
    ensures Ranked(rs, [j] + s)
  {
    var t := [j] + s;
    forall a, b | 0 <= a < b < |t| ensures Precedes(rs, t[a], t[b]) {
      if a == 0 {
        assert t[b] == s[b - 1];
        if b > 1 {
          PrecedesTransitive(rs, j, s[0], s[b - 1]);
        }
      } else {
        assert t[a] == s[a - 1] && t[b] == s[b - 1];
      }
    }
  }

  /** Two distinct indices are ranked one way or the other. */
  lemma PrecedesTotal(rs: seq<AgentResponse>, i: nat, j: nat)
    requires i < |rs| && j < |rs| && i != j && !Precedes(rs, i, j)
    ensures Precedes(rs, j, i)
  {
  }

  /** The head of a ranked list precedes every later element. */
  lemma HeadPrecedesTail(rs: seq<AgentResponse>, s: seq<nat>, x: nat)
    requires Ranked(rs, s) && s != [] && x in s[1..]
    ensures x < |rs| && Precedes(rs, s[0], x)
  {
    var k :| 0 <= k < |s| - 1 && s[1..][k] == x;
    assert s[k + 1] == x;
  }

  /** When `j` goes behind the head, the head precedes every index of the rest. */
  lemma HeadPrecedesInserted(rs: seq<AgentResponse>, s: seq<nat>, j: nat, x: nat)
    requires j < |rs| && Ranked(rs, s) && j !in s && s != [] && !Precedes(rs, j, s[0])
    requires x in Insert(rs, s[1..], j)
    ensures x < |rs| && Precedes(rs, s[0], x)
  {
    assert Indices(rs, s[1..]) by {
      forall k | 0 <= k < |s[1..]| ensures s[1..][k] < |rs| {
        assert s[1..][k] == s[k + 1];
      }
    }
    var rest := Insert(rs, s[1..], j);
    assert x in multiset(rest);
    if x == j {
      PrecedesTotal(rs, j, s[0]);
    } else {
      assert x in multiset(s[1..]);
      HeadPrecedesTail(rs, s, x);
    }
  }

  /** A ranked list stays ranked behind an index that precedes all of it. */
  lemma ConsKeepsRanked(rs: seq<AgentResponse>, h: nat, rest: seq<nat>)
    requires h < |rs| && Ranked(rs, rest)
    requires forall k :: 0 <= k < |rest| ==> Precedes(rs, h, rest[k])
    ensures Ranked(rs, [h] + rest)
  {
    var t := [h] + rest;
    forall a, b | 0 <= a < b < |t| ensures Precedes(rs, t[a], t[b]) {
      if a == 0 {
        assert t[b] == rest[b - 1];
      } else {
        assert t[a] == rest[a - 1] && t[b] == rest[b - 1];
      }
    }
  }

  /** When `j` goes behind the head, the head precedes everything after it. */
  lemma InsertBehindKeepsRanked(rs: seq<AgentResponse>, s: seq<nat>, j: nat)
    requires j < |rs| && Ranked(rs, s) && j !in s && s != [] && !Precedes(rs, j, s[0])
    requires Ranked(rs, Insert(rs, s[1..], j))
    ensures Ranked(rs, Insert(rs, s, j))
  {
    var rest := Insert(rs, s[1..], j);
    forall k | 0 <= k < |rest| ensures Precedes(rs, s[0], rest[k]) {
      HeadPrecedesInserted(rs, s, j, rest[k]);
    }
    ConsKeepsRanked(rs, s[0], rest);
  }

  /** Inserting adds exactly the new index. */
  lemma InsertMembers(rs: seq<AgentResponse>, s: seq<nat>, j: nat)
    requires j < |rs| && Indices(rs, s)
    ensures forall i :: i in Insert(rs, s, j) <==> i in s || i == j
  {
    var t := Insert(rs, s, j);
    forall i ensures i in t <==> i in s || i == j {
      assert i in t <==> i in multiset(t);
      assert i in s <==> i in multiset(s);
    }
  }

  /** The indices 0 .. n-1 in ranking order. */
  function RankPrefix(rs: seq<AgentResponse>, n: nat): (t: seq<nat>)
    requires n <= |rs|
    ensures Ranked(rs, t)
    ensures |t| == n
    ensures forall i: nat :: i in t <==> i < n
  {
    if n == 0 then []
    else
      var last: nat := n - 1;
      var s := RankPrefix(rs, last);
      var t := Insert(rs, s, last);
      InsertKeepsRanked(rs, s, last);
      InsertMembers(rs, s, last);
      t
  }

  /** Every index of `rs`, most confident first, ties in input order. */
  function ByConfidence(rs: seq<AgentResponse>): (t: seq<nat>)
    ensures Ranked(rs, t) && |t| == |rs|
    ensures forall i: nat :: i in t <==> i < |rs|
  {
    RankPrefix(rs, |rs|)
  }

  /** The indices of the (up to) three most confident responses, in ranking order. */
  function TopThree(rs: seq<AgentResponse>): (t: seq<nat>)
    ensures |t| == if |rs| < 3 then |rs| else 3
    ensures Ranked(rs, t)
  {
    var ranked := ByConfidence(rs);
    ranked[..if |rs| < 3 then |rs| else 3]
  }

  /**
   * A selected response is at least as confident as any response left
   * out, and when the confidences tie the selected one came first.
   */
  lemma TopThreeAreMostConfident(rs: seq<AgentResponse>, t: nat, i: nat)
    requires t in TopThree(rs) && i < |rs| && i !in TopThree(rs)
    ensures t < |rs|
    ensures rs[t].confidence >= rs[i].confidence
    ensures rs[t].confidence == rs[i].confidence ==> t < i
  {
    var ranked := ByConfidence(rs);
    var m := |TopThree(rs)|;
    var a :| 0 <= a < m && TopThree(rs)[a] == t;
    assert i in ranked;
    var b :| 0 <= b < |ranked| && ranked[b] == i;
    assert ranked[a] == t;
    assert forall c :: 0 <= c < m ==> TopThree(rs)[c] != i;
    assert Precedes(rs, ranked[a], ranked[b]);
  }

  /** The selection holds distinct responses. */
  lemma TopThreeDistinct(rs: seq<AgentResponse>)
    ensures forall a, b :: 0 <= a < b < |TopThree(rs)| ==> TopThree(rs)[a] != TopThree(rs)[b]
  {
    var t := TopThree(rs);
    forall a, b | 0 <= a < b < |t| ensures t[a] != t[b] {
      assert Precedes(rs, t[a], t[b]);
    }
  }
}
