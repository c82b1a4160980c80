/**
 * Choosing the next article among all of a page's links (examples/browser-speed/src/wiki-routing.ts):
 * one question can offer 255 choices, so a longer page is shortlisted group by group first.
 */
module WikiRouting {
  import opened Common

  const GROUP_LIMIT := 255
  const LINK_LIMIT := 5_000

  datatype RouteLink = RouteLink(ref: string, text: string, title: string, href: string)

  datatype Error = InvalidRoute | BrowserFault

  type Group = seq<RouteLink>

  /** What the decision service answers to one round of questions: a choice each, or nothing. */
  datatype Reply = NoReply(error: Error) | Answers(choices: map<nat, string>)

  // ------------------------------------------------------------------ the partition

  function GroupCount(n: nat): nat {
    CeilDiv(n, GROUP_LIMIT)
  }

  function GroupSize(n: nat): nat
    requires n > 0
  {
    CeilDiv(n, GroupCount(n))
  }

  /** `slice` cuts both of its ends to the sequence. */
  function Slice(links: Group, from: nat, to: nat): Group
    requires from <= to
  {
    links[Min(from, |links|)..Min(to, |links|)]
  }

  function Groups(links: Group): (groups: seq<Group>)
    requires links != []
    ensures |groups| == GroupCount(|links|)
  {
    var size := GroupSize(|links|);
    seq(GroupCount(|links|), i requires 0 <= i < GroupCount(|links|) => Nth(links, size, i))
  }

  function Nth(links: Group, size: nat, i: nat): Group {
    assert i * size <= (i + 1) * size;
    Slice(links, i * size, (i + 1) * size)
  }

  function Concatenated(groups: seq<Group>): Group {
    if groups == [] then [] else Concatenated(groups[..|groups| - 1]) + groups[|groups| - 1]
  }

  /** The arithmetic of balance: with at most 5,000 links even the last group has two or more. */
  lemma GroupsAreBalanced(n: nat)
    requires 2 <= n <= LINK_LIMIT
    ensures var count, size := GroupCount(n), GroupSize(n);
            && 1 <= count <= 20
            && 2 <= size <= GROUP_LIMIT
            && (count - 1) * size + 2 <= n <= count * size
  {
    var count, size := GroupCount(n), GroupSize(n);
    assert GROUP_LIMIT * (count - 1) < n <= GROUP_LIMIT * count;
    assert count * (size - 1) < n <= count * size;
    if count == 1 {
      assert size == n;
    } else {
      LastGroup(n, count, size);
      SizeIsWithinTheLimit(n, count, size);
    }
  }

  lemma Multiply(a: nat, b: nat, c: nat)
    requires a <= b
    ensures a * c <= b * c
  {
  }

  lemma SizeIsWithinTheLimit(n: nat, count: nat, size: nat)
    requires count >= 1 && size >= 1 && n <= GROUP_LIMIT * count && count * (size - 1) < n
    ensures size <= GROUP_LIMIT
  {
  }

  lemma LastGroup(n: nat, count: nat, size: nat)
    requires 2 <= count <= 20 && GROUP_LIMIT * (count - 1) < n
    requires size >= 1 && count * (size - 1) < n <= count * size
    ensures (count - 1) * size + 2 <= n && size >= 2
  {
    if size <= count { Multiply(size, 20, count); }
    assert (count - 1) * size == count * (size - 1) + count - size;
  }

  lemma GroupAt(links: Group, i: nat)
    requires 2 <= |links| <= LINK_LIMIT && i < GroupCount(|links|)
    ensures var size := GroupSize(|links|);
            && i * size <= |links|
            && Groups(links)[i] == links[i * size..Min((i + 1) * size, |links|)]
            && 2 <= |Groups(links)[i]| <= GROUP_LIMIT
  {
    var size := GroupSize(|links|);
    GroupBounds(|links|, i);
    assert Groups(links)[i] == Nth(links, size, i);
    SliceOf(links, i * size, size);
  }

  lemma GroupBounds(n: nat, i: nat)
    requires 2 <= n <= LINK_LIMIT && i < GroupCount(n)
    ensures i * GroupSize(n) + 2 <= n && (i + 1) * GroupSize(n) == i * GroupSize(n) + GroupSize(n)
    ensures 2 <= GroupSize(n) <= GROUP_LIMIT
  {
    GroupsAreBalanced(n);
    Multiply(i, GroupCount(n) - 1, GroupSize(n));
  }

  lemma SliceOf(links: Group, from: nat, size: nat)
    requires from + 2 <= |links| && 2 <= size <= GROUP_LIMIT
    ensures Slice(links, from, from + size) == links[from..Min(from + size, |links|)]
    ensures 2 <= |Slice(links, from, from + size)| <= GROUP_LIMIT
  {
  }

  /** The first `end` links, counting no further than there are any. */
  function UpTo(links: Group, end: nat): Group {
    links[..Min(end, |links|)]
  }

  lemma OneGroupMore(links: Group, from: nat, to: nat)
    requires from <= |links| && from <= to
    ensures UpTo(links, from) + links[from..Min(to, |links|)] == UpTo(links, to)
  {
  }

  /** Cuts that begin each where the last one ended. */
  ghost predicate Consecutive(links: Group, groups: seq<Group>, cuts: seq<nat>) {
    && |cuts| == |groups| + 1 && cuts[0] == 0
    && forall i :: 0 <= i < |groups| ==> cuts[i] <= |links| && cuts[i] <= cuts[i + 1] && groups[i] == links[cuts[i]..Min(cuts[i + 1], |links|)]
  }

  lemma {:induction false} FirstGroups(links: Group, groups: seq<Group>, cuts: seq<nat>, k: nat)
    requires Consecutive(links, groups, cuts) && k <= |groups|
    ensures Concatenated(groups[..k]) == UpTo(links, cuts[k])
  {
    if k > 0 {
      FirstGroups(links, groups, cuts, k - 1);
      LastOfFirst(groups, k);
      assert groups[k - 1] == links[cuts[k - 1]..Min(cuts[k], |links|)];
      OneGroupMore(links, cuts[k - 1], cuts[k]);
    }
  }

  lemma LastOfFirst(groups: seq<Group>, k: nat)
    requires 0 < k <= |groups|
    ensures Concatenated(groups[..k]) == Concatenated(groups[..k - 1]) + groups[k - 1]
  {
    assert groups[..k][..k - 1] == groups[..k - 1];
  }

  lemma GroupCuts(links: Group) returns (cuts: seq<nat>)
    requires 2 <= |links| <= LINK_LIMIT
    ensures Consecutive(links, Groups(links), cuts) && cuts[|Groups(links)|] >= |links|
  {
    var groups, size := Groups(links), GroupSize(|links|);
    GroupsAreBalanced(|links|);
    cuts := Multiples(size, |groups|);
    forall i | 0 <= i < |groups|
      ensures cuts[i] <= |links| && groups[i] == links[cuts[i]..Min(cuts[i + 1], |links|)]
    {
      GroupAt(links, i);
    }
  }

  lemma Multiples(size: nat, count: nat) returns (cuts: seq<nat>)
    ensures |cuts| == count + 1
    ensures forall i :: 0 <= i <= count ==> cuts[i] == i * size
    ensures forall i :: 0 <= i < count ==> cuts[i] <= cuts[i + 1]
  {
    cuts := seq(count + 1, i requires 0 <= i => i * size);
    forall i | 0 <= i < count ensures cuts[i] <= cuts[i + 1] {
      Multiply(i, i + 1, size);
    }
  }

  lemma EveryGroupIsAskable(links: Group)
    requires 2 <= |links| <= LINK_LIMIT
    ensures forall g :: g in Groups(links) ==> 2 <= |g| <= GROUP_LIMIT
    ensures forall g, l :: g in Groups(links) && l in g ==> l in links
  {
    forall g | g in Groups(links) ensures 2 <= |g| <= GROUP_LIMIT && forall l :: l in g ==> l in links {
      var i :| 0 <= i < |Groups(links)| && Groups(links)[i] == g;
      GroupAt(links, i);
    }
  }

  /** The groups are the links, in order and balanced, and a round of winners fits one question. */
  lemma GroupsPartitionTheLinks(links: Group)
    requires 2 <= |links| <= LINK_LIMIT
    ensures Concatenated(Groups(links)) == links
    ensures forall g :: g in Groups(links) ==> 2 <= |g| <= GROUP_LIMIT
    ensures 1 <= |Groups(links)| <= 20
    ensures forall g, l :: g in Groups(links) && l in g ==> l in links
  {
    var groups := Groups(links);
    GroupsAreBalanced(|links|);
    EveryGroupIsAskable(links);
    var cuts := GroupCuts(links);
    FirstGroups(links, groups, cuts, |groups|);
    assert groups[..|groups|] == groups;
  }

  // ------------------------------------------------------------------ one round of questions

  predicate Offers(group: Group, ref: string) {
    exists l :: l in group && l.ref == ref
  }

  /** Every question answered with a choice it offered. */
  predicate Answered(groups: seq<Group>, reply: Reply) {
    reply.Answers? && forall i :: 0 <= i < |groups| ==> i in reply.choices && Offers(groups[i], reply.choices[i])
  }

  /** The group's first link of that reference. */
  method Find(group: Group, ref: string) returns (link: Option<RouteLink>)
    ensures link.Some? <==> Offers(group, ref)
    ensures link.Some? ==> link.value in group && link.value.ref == ref
  {
    for i := 0 to |group|
      invariant forall j :: 0 <= j < i ==> group[j].ref != ref
    {
      if group[i].ref == ref { return Some(group[i]); }
    }
    link := None;
  }

  method Choose(groups: seq<Group>, reply: Reply) returns (r: Result<Group, Error>)
    ensures r.Ok? <==> Answered(groups, reply)
    ensures r.Ok? ==> |r.value| == |groups|
                      && forall i :: 0 <= i < |groups| ==> r.value[i] in groups[i] && r.value[i].ref == reply.choices[i]
    ensures r.Err? ==> r.error == if reply.NoReply? then reply.error else InvalidRoute
  {
    if reply.NoReply? { return Err(reply.error); }
    var selected: Group := [];
    for i := 0 to |groups|
      invariant |selected| == i
      invariant forall j :: 0 <= j < i ==> j in reply.choices && Offers(groups[j], reply.choices[j])
      invariant forall j :: 0 <= j < i ==> selected[j] in groups[j] && selected[j].ref == reply.choices[j]
    {
      if i !in reply.choices { return Err(InvalidRoute); }
      var link := Find(groups[i], reply.choices[i]);
      if link.None? { return Err(InvalidRoute); }
      selected := selected + [link.value];
    }
    r := Ok(selected);
  }

  // ------------------------------------------------------------------ the choice

  /** Every question a choice asks offers between 2 and 255 links. */
  predicate Askable(round: seq<Group>) {
    round != [] && forall g :: g in round ==> 2 <= |g| <= GROUP_LIMIT
  }

  method Decide(winners: Group, second: Reply) returns (r: Result<RouteLink, Error>, ghost finals: seq<seq<Group>>)
    requires winners != []
    ensures |winners| == 1 ==> r == Ok(winners[0]) && finals == []
    ensures |winners| > 1 ==> finals == [[winners]] && (r.Ok? <==> Answered([winners], second))
    ensures |winners| > 1 && r.Ok? ==> 0 in second.choices && r.value.ref == second.choices[0]
    ensures r.Ok? ==> r.value in winners
  {
    finals := [];
    var finalists := winners;
    if |winners| > 1 {
      finals := [[winners]];
      var final := Choose([winners], second);
      if final.Err? { return Err(final.error), finals; }
      finalists := final.value;
      assert finalists[0] in [winners][0];
    }
    r := Ok(finalists[0]);
  }

  /** What a whole choice asks and answers: everything in one round, or in two. */
  ghost predicate Routed(groups: seq<Group>, first: Reply, second: Reply, r: Result<RouteLink, Error>, rounds: seq<seq<Group>>) {
    var last := if |groups| == 1 then first else second;
    && rounds != [] && rounds[0] == groups
    && (|groups| == 1 ==> rounds == [groups])
    && (r.Ok? <==> Answered(groups, first) && (|groups| > 1 ==> |rounds| == 2 && Answered(rounds[1], second)))
    && (r.Ok? ==> last.Answers? && 0 in last.choices && r.value.ref == last.choices[0])
  }

  lemma Conclude(groups: seq<Group>, first: Reply, second: Reply, winners: Group, r: Result<RouteLink, Error>, finals: seq<seq<Group>>)
    requires Answered(groups, first) && |winners| == |groups| >= 1
    requires winners[0] in groups[0] && winners[0].ref == first.choices[0]
    requires |winners| == 1 ==> r == Ok(winners[0]) && finals == []
    requires |winners| > 1 ==> finals == [[winners]] && (r.Ok? <==> Answered([winners], second))
    requires |winners| > 1 && r.Ok? ==> 0 in second.choices && r.value.ref == second.choices[0]
    ensures Routed(groups, first, second, r, [groups] + finals)
  {
    if |winners| > 1 { assert ([groups] + finals)[1] == [winners]; }
  }

  method ChooseAmong(groups: seq<Group>, first: Reply, second: Reply) returns (r: Result<RouteLink, Error>, ghost rounds: seq<seq<Group>>)
    requires Askable(groups) && |groups| <= GROUP_LIMIT
    ensures Routed(groups, first, second, r, rounds)
    ensures forall round :: round in rounds ==> Askable(round)
    ensures r.Ok? ==> exists g :: g in groups && r.value in g
  {
    rounds := [groups];
    var winners := Choose(groups, first);
    if winners.Err? { return Err(winners.error), rounds; }
    ghost var finals;
    r, finals := Decide(winners.value, second);
    rounds := [groups] + finals;
    Conclude(groups, first, second, winners.value, r, finals);
    if r.Ok? {
      var i :| 0 <= i < |groups| && winners.value[i] == r.value;
      assert groups[i] in groups;
    }
  }

  /**
   * All links take part in the first round, whose winners meet in a second if there are several.
   * `rounds` is what was asked.
   */
  method ChooseRoute(links: Group, first: Reply, second: Reply) returns (r: Result<RouteLink, Error>, ghost rounds: seq<seq<Group>>)
    ensures r.Ok? ==> r.value in links
    ensures forall round :: round in rounds ==> Askable(round)
    ensures links == [] || |links| > LINK_LIMIT ==> r == Err(InvalidRoute) && rounds == []
    ensures |links| == 1 ==> r == Ok(links[0]) && rounds == []
    ensures 2 <= |links| <= LINK_LIMIT ==> Routed(Groups(links), first, second, r, rounds)
  {
    rounds := [];
    if links == [] || |links| > LINK_LIMIT { return Err(InvalidRoute), rounds; }
    if |links| == 1 { return Ok(links[0]), rounds; }
    GroupsPartitionTheLinks(links);
    r, rounds := ChooseAmong(Groups(links), first, second);
  }
}
