/** `getIssueLinks`: the Jira ids an issue's links point at. */
module IssueLinks {
  import opened Js
  import opened Jira

  /** The ids one link contributes: outward first, then inward. */
  function LinkTargets(link: IssueLink): seq<string> {
    (if link.outward.Some? then [link.outward.value] else []) +
    (if link.inward.Some? then [link.inward.value] else [])
  }

  /** The ids of all links, link by link in order. */
  function LinkIds(links: seq<IssueLink>): seq<string> {
    if links == [] then [] else LinkIds(links[..|links| - 1]) + LinkTargets(links[|links| - 1])
  }

  /** How many links have an outward (resp. inward) issue. */
  function CountOutward(links: seq<IssueLink>): nat {
    if links == [] then 0 else CountOutward(links[1..]) + (if links[0].outward.Some? then 1 else 0)
  }

  function CountInward(links: seq<IssueLink>): nat {
    if links == [] then 0 else CountInward(links[1..]) + (if links[0].inward.Some? then 1 else 0)
  }

  /** `getIssueLinks` as written: a `forEach` loop pushing into `linkIds`. */
  method GetIssueLinks(links: seq<IssueLink>) returns (linkIds: seq<string>)
    ensures linkIds == LinkIds(links)
  {
    linkIds := [];
    var i := 0;
    while i < |links|
      invariant 0 <= i <= |links|
      invariant linkIds == LinkIds(links[..i])
    {
      var link := links[i];
      if link.outward.Some? {
        linkIds := linkIds + [link.outward.value];
      }
      if link.inward.Some? {
        linkIds := linkIds + [link.inward.value];
      }
      assert links[..i + 1][..i] == links[..i];
      i := i + 1;
    }
    assert links[..i] == links;
  }

  /** The collection distributes over concatenation of link lists: it is an
      order-preserving flat map. */
  lemma {:induction false} LinkIdsAppend(a: seq<IssueLink>, b: seq<IssueLink>)
    ensures LinkIds(a + b) == LinkIds(a) + LinkIds(b)
    decreases |b|
  {
    if b == [] {
      assert a + b == a;
    } else {
      var last := b[|b| - 1];
      var init := b[..|b| - 1];
      assert (a + b)[..|a + b| - 1] == a + init && (a + b)[|a + b| - 1] == last;
      LinkIdsAppend(a, init);
      ConcatAssoc(LinkIds(a), LinkIds(init), LinkTargets(last));
    }
  }

  /** One id per present outward issue plus one per present inward issue. */
  lemma {:induction false} LinkIdsLength(links: seq<IssueLink>)
    ensures |LinkIds(links)| == CountOutward(links) + CountInward(links)
  {
    if links != [] {
      LinkIdsLength(links[1..]);
      LinkIdsAppend([links[0]], links[1..]);
      assert [links[0]] + links[1..] == links;
      assert LinkIds([links[0]]) == LinkTargets(links[0]) by {
        assert [links[0]][..0] == [];
      }
    }
  }

  /** An id is collected exactly when some link has it as its outward or its
      inward issue. */
  lemma {:induction false} LinkIdsMembership(links: seq<IssueLink>, x: string)
    ensures x in LinkIds(links) <==>
      exists i :: 0 <= i < |links| && (links[i].outward == Some(x) || links[i].inward == Some(x))
  {
    if links != [] {
      var init := links[..|links| - 1];
      LinkIdsMembership(init, x);
      var last := links[|links| - 1];
      if x in LinkTargets(last) {
        assert links[|links| - 1].outward == Some(x) || links[|links| - 1].inward == Some(x);
      }
      if exists i :: 0 <= i < |links| && (links[i].outward == Some(x) || links[i].inward == Some(x)) {
        var i :| 0 <= i < |links| && (links[i].outward == Some(x) || links[i].inward == Some(x));
        if i < |links| - 1 {
          assert init[i] == links[i];
        }
      }
    }
  }
}
