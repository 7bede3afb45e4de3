/** The friend-links footer (src/components/FriendLinks.tsx): fetch the list,
    drop links to this site, and render nothing when none remain. The fetch
    is given as its outcome. */
module FriendLinks {
  import opened Common
  import opened Text

  datatype FriendLink = FriendLink(link: string, siteName: string)

  /** How the request ended: a response with its `ok` flag and its parsed
      body (`None` when `response.json()` throws), or a thrown error. */
  datatype FetchOutcome = Responded(ok: bool, body: Option<seq<FriendLink>>) | Threw

  /** `getFriendLinks()`: every failure yields the empty list. */
  function GetFriendLinks(outcome: FetchOutcome): (links: seq<FriendLink>)
    ensures outcome == Threw ==> links == []
    ensures outcome.Responded? && (!outcome.ok || outcome.body.None?) ==> links == []
    ensures outcome.Responded? && outcome.ok && outcome.body.Some? ==> links == outcome.body.value
  {
    match outcome
    case Threw => []
    case Responded(ok, body) => if !ok then [] else body.GetOr([])
  }

  /** Whether a link is kept: always when no site domain is configured,
      otherwise when its URL does not contain the domain. */
  ghost predicate Kept(l: FriendLink, siteDomain: string) {
    siteDomain == [] || !Contains(l.link, siteDomain)
  }

  /** The `links.filter(...)` step. */
  function FilterLinks(links: seq<FriendLink>, siteDomain: string): (kept: seq<FriendLink>)
    ensures forall l :: l in kept <==> l in links && Kept(l, siteDomain)
    ensures forall l :: multiset(kept)[l] == (if Kept(l, siteDomain) then multiset(links)[l] else 0)
    ensures IsSubsequence(kept, links)
    ensures siteDomain == [] ==> kept == links
  {
    if links == [] then []
    else
      var rest := FilterLinks(links[1..], siteDomain);
      assert links == [links[0]] + links[1..];
      assert multiset(links) == multiset{links[0]} + multiset(links[1..]);
      if siteDomain == [] || !Includes(links[0].link, siteDomain) then
        assert ([links[0]] + rest)[1..] == rest;
        [links[0]] + rest
      else
        assert rest == [] || IsSubsequence(rest, links[1..]);
        rest
  }

  /** The component: `None` renders nothing, which happens exactly when no
      link survives the filter. */
  function FriendLinksView(outcome: FetchOutcome, siteDomain: string): (view: Option<seq<FriendLink>>)
    ensures view.None? <==> forall l :: l in GetFriendLinks(outcome) ==> !Kept(l, siteDomain)
    ensures view.Some? ==> view.value == FilterLinks(GetFriendLinks(outcome), siteDomain) && view.value != []
    ensures outcome == Threw ==> view == None
    ensures outcome.Responded? && (!outcome.ok || outcome.body.None?) ==> view == None
  {
    var kept := FilterLinks(GetFriendLinks(outcome), siteDomain);
    if kept == [] then None else assert kept[0] in kept; Some(kept)
  }
}
