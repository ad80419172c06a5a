/**
 One OpenShiftPulse per cluster: which of several CRs the operator acts on
 (internal/controller/admission.go).
 */
module Admission {
  import opened Sorting

  // ----- The order among CRs -----

  /** A CR as admission sees it; creation times are stored in whole seconds. */
  datatype CR = CR(namespace: string, name: string, uid: nat, created: nat, deleting: bool)

  predicate Before(a: CR, b: CR) {
    a.created < b.created || (a.created == b.created && StringLess(a.name, b.name))
  }

  lemma BeforeIsTransitive(a: CR, b: CR, c: CR)
    requires Before(a, b) && Before(b, c)
    ensures Before(a, c)
  {
    if a.created == b.created == c.created {
      StringLessIsTransitive(a.name, b.name, c.name);
    }
  }

  lemma BeforeIsAsymmetric(a: CR, b: CR)
    ensures !(Before(a, b) && Before(b, a)) && !Before(a, a)
    ensures a.name != b.name ==> Before(a, b) || Before(b, a)
  {
    StringLessIsTotal(a.name, b.name);
    StringLessIsTotal(a.name, a.name);
  }

  lemma BeforeIsAnOrder()
    ensures StrictOrder(Before)
  {
    forall a, b, c | Before(a, b) && Before(b, c) ensures Before(a, c) {
      BeforeIsTransitive(a, b, c);
    }
    forall a ensures !Before(a, a) {
      BeforeIsAsymmetric(a, a);
    }
  }

  // ----- The decision -----

  datatype Verdict = Accepted | WrongNamespace(pulseNamespace: string) | AlreadyExists(name: string)

  function Live(list: seq<CR>): seq<CR> {
    if list == [] then []
    else if list[0].deleting then Live(list[1..]) else [list[0]] + Live(list[1..])
  }

  function Oldest(live: seq<CR>): CR
    requires live != []
  {
    if |live| == 1 then live[0]
    else if Before(Oldest(live[1..]), live[0]) then Oldest(live[1..]) else live[0]
  }

  /** Why `asker` is not the cluster's instance, given the CRs listed in the Pulse namespace. */
  function RejectionReason(asker: CR, list: seq<CR>, pulseNamespace: string): Verdict {
    if asker.namespace != pulseNamespace then WrongNamespace(pulseNamespace)
    else if |Live(list)| < 2 then Accepted
    else if Oldest(Live(list)).uid == asker.uid then Accepted
    else AlreadyExists(Oldest(Live(list)).name)
  }

  // ----- The decision, as the operator takes it -----

  method DecideAdmission(asker: CR, list: seq<CR>, pulseNamespace: string) returns (verdict: Verdict)
    ensures !SameRank(Live(list)) ==> verdict == RejectionReason(asker, list, pulseNamespace)
    ensures verdict.WrongNamespace? <==> asker.namespace != pulseNamespace
  {
    if asker.namespace != pulseNamespace {
      return WrongNamespace(pulseNamespace);
    }
    var live: seq<CR> := [];
    for i := 0 to |list|
      invariant live == Live(list[..i])
    {
      LiveAppend(list[..i], list[i]);
      assert list[..i + 1] == list[..i] + [list[i]];
      if !list[i].deleting {
        live := live + [list[i]];
      }
    }
    assert list[..|list|] == list;
    if |live| < 2 {
      return Accepted;
    }
    var sorted := new CR[|live|](i requires 0 <= i < |live| => live[i]);
    assert sorted[..] == live;
    BeforeIsAnOrder();
    Sort(sorted, Before);
    if !SameRank(live) {
      FirstIsOldest(sorted[..], live);
    }
    if sorted[0].uid == asker.uid {
      return Accepted;
    }
    return AlreadyExists(sorted[0].name);
  }

  /** Two CRs that neither is older than the other: impossible in one namespace, where names differ. */
  ghost predicate SameRank(live: seq<CR>) {
    exists i, j :: 0 <= i < j < |live| && live[i].name == live[j].name
  }

  lemma {:induction false} LiveAppend(list: seq<CR>, last: CR)
    ensures Live(list + [last]) == Live(list) + if last.deleting then [] else [last]
  {
    if list == [] {
      assert list + [last] == [last];
    } else {
      LiveAppend(list[1..], last);
      assert (list + [last])[1..] == list[1..] + [last];
    }
  }

  // ----- The winner -----

  /** `c` is in the list and every other CR of the list comes after it. */
  ghost predicate IsFirst(live: seq<CR>, c: CR) {
    c in live && forall d :: d in live && d != c ==> Before(c, d)
  }

  lemma {:induction false} OldestIsFirst(live: seq<CR>)
    requires live != [] && !SameRank(live)
    ensures IsFirst(live, Oldest(live))
  {
    if |live| > 1 {
      var rest := live[1..];
      assert live == [live[0]] + rest;
      assert !SameRank(rest) by {
        forall i, j | 0 <= i < j < |rest| ensures rest[i].name != rest[j].name {
          assert live[i + 1].name != live[j + 1].name;
        }
      }
      OldestIsFirst(rest);
      var o := Oldest(rest);
      var k :| 0 <= k < |rest| && rest[k] == o;
      assert live[0].name != live[k + 1].name;
      BeforeIsAsymmetric(live[0], o);
      forall d | d in rest && d != live[0] && !Before(o, live[0]) ensures Before(live[0], d) {
        if d != o {
          BeforeIsTransitive(live[0], o, d);
        }
      }
    }
  }

  lemma FirstIsUnique(live: seq<CR>, other: seq<CR>, c: CR, d: CR)
    requires forall x :: x in live <==> x in other
    requires IsFirst(live, c) && IsFirst(other, d)
    ensures c == d
  {
    if c != d {
      BeforeIsAsymmetric(c, d);
    }
  }

  lemma FirstIsOldest(sorted: seq<CR>, live: seq<CR>)
    requires Sorted(sorted, Before) && multiset(sorted) == multiset(live) && |live| > 0 && !SameRank(live)
    ensures |sorted| > 0 && sorted[0] == Oldest(live)
  {
    assert |multiset(sorted)| == |multiset(live)|;
    forall x ensures x in sorted <==> x in live {
      assert x in multiset(sorted) <==> x in multiset(live);
    }
    OldestIsFirst(live);
    assert Oldest(live) in sorted && sorted[0] in sorted;
    var k :| 0 <= k < |sorted| && sorted[k] == Oldest(live);
    assert k > 0 ==> !Before(sorted[k], sorted[0]);
  }

  // ----- Main results -----

  /** CRs of one namespace, as the API server stores them: names and UIDs are each used once. */
  ghost predicate OneNamespace(list: seq<CR>, pulseNamespace: string) {
    && (forall c :: c in list ==> c.namespace == pulseNamespace)
    && (forall i, j :: 0 <= i < j < |list| ==> list[i].name != list[j].name && list[i].uid != list[j].uid)
  }

  lemma {:induction false} LiveIsSublist(list: seq<CR>, pulseNamespace: string)
    requires OneNamespace(list, pulseNamespace)
    ensures forall c :: c in Live(list) <==> c in list && !c.deleting
    ensures OneNamespace(Live(list), pulseNamespace) && !SameRank(Live(list))
  {
    if list != [] {
      assert list == [list[0]] + list[1..];
      assert OneNamespace(list[1..], pulseNamespace);
      LiveIsSublist(list[1..], pulseNamespace);
      if !list[0].deleting {
        forall c | c in Live(list[1..]) ensures c.name != list[0].name && c.uid != list[0].uid {
          var k :| 0 <= k < |list[1..]| && list[1..][k] == c;
          assert list[k + 1] == c;
        }
      }
    }
  }

  predicate IsAccepted(c: CR, list: seq<CR>, pulseNamespace: string) {
    c in list && !c.deleting && RejectionReason(c, list, pulseNamespace) == Accepted
  }

  lemma AcceptedIsOldest(list: seq<CR>, pulseNamespace: string, c: CR)
    requires OneNamespace(list, pulseNamespace) && Live(list) != []
    ensures IsAccepted(c, list, pulseNamespace) <==> c == Oldest(Live(list))
    ensures IsFirst(Live(list), Oldest(Live(list)))
  {
    LiveIsSublist(list, pulseNamespace);
    var live := Live(list);
    OldestIsFirst(live);
    var o := Oldest(live);
    if c in live && c.uid == o.uid {
      var i :| 0 <= i < |live| && live[i] == c;
      var j :| 0 <= j < |live| && live[j] == o;
      assert i == j;
    }
    if |live| == 1 && c in live {
      assert c == live[0];
    }
  }

  /** The live CR of the list that every other live one comes after. */
  ghost predicate IsWinner(list: seq<CR>, w: CR) {
    w in list && !w.deleting && forall d :: d in list && !d.deleting && d != w ==> Before(w, d)
  }

  lemma OldestIsTheWinner(list: seq<CR>, pulseNamespace: string, w: CR)
    requires OneNamespace(list, pulseNamespace) && Live(list) != []
    ensures w == Oldest(Live(list)) <==> IsWinner(list, w)
  {
    LiveIsSublist(list, pulseNamespace);
    var o := Oldest(Live(list));
    OldestIsFirst(Live(list));
    BeforeIsAsymmetric(o, w);
  }

  /** The winner is the oldest, and among CRs of its second the one with the smallest name. */
  lemma WinnerIsOldest(list: seq<CR>, w: CR, d: CR)
    requires IsWinner(list, w) && d in list && !d.deleting && d != w
    ensures w.created <= d.created
    ensures w.created == d.created ==> exists i: nat :: LessAt(w.name, d.name, i)
  {
    StringLessIff(w.name, d.name);
  }

  lemma OneLive(live: seq<CR>)
    requires |live| < 2
    ensures forall c, d :: c in live && d in live ==> c == d
  {
  }

  /**
   The verdict, told from the list alone, for an asker of any namespace: turned away for its namespace,
   or accepted as the one that all others come after, or turned away for that one, by its name.
   */
  lemma VerdictIs(asker: CR, list: seq<CR>, pulseNamespace: string)
    requires OneNamespace(list, pulseNamespace)
    requires asker.namespace == pulseNamespace ==> asker in list && !asker.deleting
    ensures var verdict := RejectionReason(asker, list, pulseNamespace);
      && (verdict == WrongNamespace(pulseNamespace) <==> asker.namespace != pulseNamespace)
      && (verdict.WrongNamespace? ==> verdict == WrongNamespace(pulseNamespace))
      && (verdict == Accepted <==> asker.namespace == pulseNamespace && IsWinner(list, asker))
      && (forall n: string :: verdict == AlreadyExists(n) <==>
            asker.namespace == pulseNamespace && exists w :: IsWinner(list, w) && w != asker && w.name == n)
  {
    if asker.namespace == pulseNamespace {
      LiveIsSublist(list, pulseNamespace);
      var live := Live(list);
      var o := Oldest(live);
      OldestIsFirst(live);
      forall w ensures IsWinner(list, w) <==> w == o {
        OldestIsTheWinner(list, pulseNamespace, w);
      }
      if |live| < 2 {
        OneLive(live);
        assert o == asker;
      } else if o.uid == asker.uid {
        SameUid(live, pulseNamespace, o, asker);
      } else {
        assert IsWinner(list, o) && o != asker;
      }
    }
  }

  lemma SameUid(list: seq<CR>, pulseNamespace: string, c: CR, d: CR)
    requires OneNamespace(list, pulseNamespace) && c in list && d in list && c.uid == d.uid
    ensures c == d
  {
    var i :| 0 <= i < |list| && list[i] == c;
    var j :| 0 <= j < |list| && list[j] == d;
    assert i == j;
  }

  /** Of the live CRs of the namespace, exactly one gets no reason: the oldest, ties going to the smaller name. */
  lemma ExactlyOneIsAccepted(list: seq<CR>, pulseNamespace: string, asker: CR)
    requires OneNamespace(list, pulseNamespace)
    requires asker in list && !asker.deleting
    ensures IsAccepted(asker, list, pulseNamespace) <==>
      forall d :: d in list && !d.deleting && d != asker ==> Before(asker, d)
    ensures exists winner ::
      IsAccepted(winner, list, pulseNamespace) && (forall c :: IsAccepted(c, list, pulseNamespace) ==> c == winner)
  {
    LiveIsSublist(list, pulseNamespace);
    var o := Oldest(Live(list));
    forall c ensures IsAccepted(c, list, pulseNamespace) <==> c == o {
      AcceptedIsOldest(list, pulseNamespace, c);
    }
    AcceptedIsOldest(list, pulseNamespace, asker);
    BeforeIsAsymmetric(o, asker);
    assert IsAccepted(o, list, pulseNamespace);
  }

  /** The order in which the API server lists the CRs does not matter. */
  lemma ListOrderDoesNotMatter(list: seq<CR>, shuffled: seq<CR>, pulseNamespace: string, asker: CR)
    requires OneNamespace(list, pulseNamespace) && OneNamespace(shuffled, pulseNamespace)
    requires forall c :: c in list <==> c in shuffled
    requires asker in list && !asker.deleting
    ensures RejectionReason(asker, list, pulseNamespace) == RejectionReason(asker, shuffled, pulseNamespace)
  {
    LiveIsSublist(list, pulseNamespace);
    LiveIsSublist(shuffled, pulseNamespace);
    AcceptedIsOldest(list, pulseNamespace, asker);
    AcceptedIsOldest(shuffled, pulseNamespace, asker);
    FirstIsUnique(Live(list), Live(shuffled), Oldest(Live(list)), Oldest(Live(shuffled)));
  }

  /**
   A newcomer takes over exactly when it is older, or of the same second with a smaller name. So one
   with a strictly later creation time never does.
   */
  lemma NewcomerWinsOnlyByAge(list: seq<CR>, newcomer: CR, pulseNamespace: string)
    requires OneNamespace(list + [newcomer], pulseNamespace) && !newcomer.deleting
    requires Live(list) != []
    ensures Live(list + [newcomer]) != []
    ensures Oldest(Live(list + [newcomer])) == if Before(newcomer, Oldest(Live(list))) then newcomer else Oldest(Live(list))
    ensures newcomer.created > Oldest(Live(list)).created ==>
      forall c :: IsAccepted(c, list + [newcomer], pulseNamespace) <==> IsAccepted(c, list, pulseNamespace)
  {
    var all := list + [newcomer];
    assert OneNamespace(list, pulseNamespace) by {
      forall i, j | 0 <= i < j < |list| ensures list[i].name != list[j].name && list[i].uid != list[j].uid {
        assert all[i] == list[i] && all[j] == list[j];
      }
      forall c | c in list ensures c.namespace == pulseNamespace { assert c in all; }
    }
    LiveAppend(list, newcomer);
    LiveIsSublist(list, pulseNamespace);
    LiveIsSublist(all, pulseNamespace);
    OldestIsFirst(Live(list));
    OldestIsFirst(Live(all));
    var o := Oldest(Live(list));
    forall k | 0 <= k < |list| ensures list[k] != newcomer {
      assert all[k].name != all[|list|].name;
    }
    var k :| 0 <= k < |list| && list[k] == o;
    assert all[k] == o && all[|list|] == newcomer;
    BeforeIsAsymmetric(newcomer, o);
    var winner := if Before(newcomer, o) then newcomer else o;
    forall d | d in Live(all) && d != winner ensures Before(winner, d) {
      if d in list && Before(newcomer, o) && d != o {
        BeforeIsTransitive(newcomer, o, d);
      }
    }
    FirstIsUnique(Live(all), Live(all), Oldest(Live(all)), winner);
    forall c | newcomer.created > o.created
      ensures IsAccepted(c, all, pulseNamespace) <==> IsAccepted(c, list, pulseNamespace)
    {
      AcceptedIsOldest(list, pulseNamespace, c);
      AcceptedIsOldest(all, pulseNamespace, c);
    }
  }

  lemma WithoutOne(list: seq<CR>, w: nat, pulseNamespace: string)
    requires OneNamespace(list, pulseNamespace) && w < |list|
    ensures var rest := list[..w] + list[w + 1..];
      OneNamespace(rest, pulseNamespace) && forall d :: d in rest <==> d in list && d != list[w]
  {
    var rest := list[..w] + list[w + 1..];
    forall i, j | 0 <= i < j < |rest| ensures rest[i].name != rest[j].name && rest[i].uid != rest[j].uid {
      assert rest[i] == list[if i < w then i else i + 1] && rest[j] == list[if j < w then j else j + 1];
    }
    forall d ensures d in rest <==> d in list && d != list[w] {
      if d in list && d != list[w] {
        var k :| 0 <= k < |list| && list[k] == d;
        assert rest[if k < w then k else k - 1] == d;
      }
      if d in rest {
        var k :| 0 <= k < |rest| && rest[k] == d;
        assert d == list[if k < w then k else k + 1];
      }
    }
  }

  /** When the winner goes, the next in (creation time, name) order takes over, and nobody else. */
  lemma NextInOrderTakesOver(list: seq<CR>, w: nat, pulseNamespace: string, c: CR)
    requires OneNamespace(list, pulseNamespace)
    requires w < |list| && IsAccepted(list[w], list, pulseNamespace)
    requires c in list && c != list[w] && !c.deleting
    ensures IsAccepted(c, list[..w] + list[w + 1..], pulseNamespace) <==>
      forall d :: d in list && !d.deleting && d != list[w] && d != c ==> Before(c, d)
    ensures Before(list[w], c)
  {
    WithoutOne(list, w, pulseNamespace);
    ExactlyOneIsAccepted(list, pulseNamespace, list[w]);
    ExactlyOneIsAccepted(list[..w] + list[w + 1..], pulseNamespace, c);
  }

  /** Why ExactlyOneIsAccepted asks for a list with the asker in it: without, two live CRs can both be accepted. */
  lemma StaleListAcceptsTwo()
    ensures var first, second := CR("openshiftpulse", "a", 1, 10, false), CR("openshiftpulse", "b", 2, 20, false);
      && OneNamespace([first, second], "openshiftpulse")
      && IsAccepted(first, [first, second], "openshiftpulse")
      && RejectionReason(second, [first], "openshiftpulse") == Accepted
  {
    var first, second := CR("openshiftpulse", "a", 1, 10, false), CR("openshiftpulse", "b", 2, 20, false);
    assert Live([first]) == [first];
    assert [first, second][1..] == [second] && Live([second]) == [second];
    ExactlyOneIsAccepted([first, second], "openshiftpulse", first);
  }
}
