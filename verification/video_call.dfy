/** The video panel (apps/web/app/components/VideoCall.tsx): which tiles
    it shows, how each is muted and labelled, which controls are visible,
    and the show/hide toggle. */
module VideoCall {
  import VideoPeers

  /** The peer ids other than the own id, in their original order. */
  function WithoutOwn(peers: seq<string>, own: string): (r: seq<string>)
    ensures forall x :: x in r <==> x in peers && x != own
    ensures |r| <= |peers|
    decreases |peers|
  {
    if peers == [] then []
    else (if peers[0] == own then [] else [peers[0]]) + WithoutOwn(peers[1..], own)
  }

  /** The ids the open panel shows a video tile for: the own id first, then
      every other peer. */
  function Tiles(own: string, peers: seq<string>): (r: seq<string>)
    ensures |r| >= 1 && r[0] == own
    ensures forall x :: x in r <==> x == own || x in peers
  {
    [own] + WithoutOwn(peers, own)
  }

  /** Filtering distributes over concatenation, so the order of the
      remaining ids is the order they had in `peers`. */
  lemma {:induction false} WithoutOwnAppend(a: seq<string>, b: seq<string>, own: string)
    ensures WithoutOwn(a + b, own) == WithoutOwn(a, own) + WithoutOwn(b, own)
    decreases |a|
  {
    if a == [] {
      assert a + b == b;
    } else {
      assert (a + b)[1..] == a[1..] + b;
      WithoutOwnAppend(a[1..], b, own);
    }
  }

  /** Only occurrences of the own id are removed; every other id keeps its
      multiplicity. */
  lemma {:induction false} WithoutOwnCounts(peers: seq<string>, own: string)
    ensures multiset(WithoutOwn(peers, own))[own] == 0
    ensures forall x :: x != own ==> multiset(WithoutOwn(peers, own))[x] == multiset(peers)[x]
    decreases |peers|
  {
    if peers != [] {
      WithoutOwnCounts(peers[1..], own);
      assert peers == [peers[0]] + peers[1..];
    }
  }

  /** Without the own id among the peers, nothing is removed. */
  lemma {:induction false} WithoutOwnIdentity(peers: seq<string>, own: string)
    requires own !in peers
    ensures WithoutOwn(peers, own) == peers
    decreases |peers|
  {
    if peers != [] {
      WithoutOwnIdentity(peers[1..], own);
      assert peers == [peers[0]] + peers[1..];
    }
  }

  /** The tile list starts with the own id, holds it exactly once, and holds
      every other peer id as often as `peers` does. */
  lemma TilesOwnFirstAndOnce(own: string, peers: seq<string>)
    ensures Tiles(own, peers)[0] == own
    ensures multiset(Tiles(own, peers))[own] == 1
    ensures forall x :: x != own ==> multiset(Tiles(own, peers))[x] == multiset(peers)[x]
  {
    WithoutOwnCounts(peers, own);
    assert multiset(Tiles(own, peers)) == multiset{own} + multiset(WithoutOwn(peers, own));
  }

  /** A tile plays muted exactly when it is the user's own video, so the user
      never hears themselves. */
  predicate Muted(own: string, id: string) {
    id == own
  }

  /** A tile's caption: "You" on the own tile, otherwise "User " followed by
      the first five characters of the id (all of it when shorter). */
  function Label(own: string, id: string): (r: string)
    ensures id == own <==> r == "You"
    ensures id != own ==> |r| == 5 + (if |id| < 5 then |id| else 5) && r[..5] == "User " && r[5..] <= id
  {
    if id == own then "You" else "User " + id[..(if |id| < 5 then |id| else 5)]
  }

  /** Exactly the first tile is muted and labelled "You". */
  lemma OnlyOwnTileMuted(own: string, peers: seq<string>, i: int)
    requires 0 <= i < |Tiles(own, peers)|
    ensures Muted(own, Tiles(own, peers)[i]) <==> i == 0
    ensures Label(own, Tiles(own, peers)[i]) == "You" <==> i == 0
  {
    if i > 0 {
      assert Tiles(own, peers)[i] in WithoutOwn(peers, own);
    }
  }

  /** Which controls are visible. Every control sits inside the panel, so a
      closed panel shows none. */
  predicate ShowStart(showPanel: bool, isOwner: bool, isStreaming: bool) { showPanel && isOwner && !isStreaming }
  predicate ShowMediaControls(showPanel: bool, isStreaming: bool) { showPanel && isStreaming }
  predicate ShowStop(showPanel: bool, isOwner: bool, isStreaming: bool) { showPanel && isStreaming && isOwner }

  /** A closed panel shows no control. In an open panel start and stop are
      never offered together, a non-owner is offered neither, the owner
      exactly one, and mute/camera are offered exactly while streaming. */
  lemma ControlsExclusive(showPanel: bool, isOwner: bool, isStreaming: bool)
    ensures !showPanel ==>
              && !ShowStart(showPanel, isOwner, isStreaming) && !ShowStop(showPanel, isOwner, isStreaming)
              && !ShowMediaControls(showPanel, isStreaming)
    ensures !(ShowStart(showPanel, isOwner, isStreaming) && ShowStop(showPanel, isOwner, isStreaming))
    ensures !isOwner ==> !ShowStart(showPanel, isOwner, isStreaming) && !ShowStop(showPanel, isOwner, isStreaming)
    ensures showPanel && isOwner ==> (ShowStart(showPanel, isOwner, isStreaming) <==> !ShowStop(showPanel, isOwner, isStreaming))
    ensures showPanel ==> (ShowMediaControls(showPanel, isStreaming) <==> isStreaming)
  {
  }

  /** For the owner with the panel open, a granted start swaps the start
      control for stop (with mute and camera), and stop swaps them back;
      with the panel closed nothing is offered at any point. */
  lemma ControlsFollowStream(st: VideoPeers.Peers, showPanel: bool)
    requires !st.hasStream && !st.isStreaming
    ensures var on := VideoPeers.StartOwnStream(st, true);
            var off := VideoPeers.StopOwnStream(on);
            && (showPanel ==>
                  && ShowStart(showPanel, true, st.isStreaming)
                  && ShowStop(showPanel, true, on.isStreaming) && ShowMediaControls(showPanel, on.isStreaming)
                  && ShowStart(showPanel, true, off.isStreaming) && !ShowMediaControls(showPanel, off.isStreaming))
            && (!showPanel ==>
                  && !ShowStart(showPanel, true, on.isStreaming) && !ShowStop(showPanel, true, on.isStreaming)
                  && !ShowMediaControls(showPanel, on.isStreaming))
  {
  }

  /** The panel is shown initially and each click flips it. */
  const InitialShowPanel: bool := true

  function TogglePanel(show: bool): (r: bool)
    ensures r != show
  {
    !show
  }

  /** The panel's visibility after `n` clicks of the toggle button. */
  function PanelAfter(n: nat): bool {
    if n == 0 then InitialShowPanel else TogglePanel(PanelAfter(n - 1))
  }

  /** Two clicks restore the panel, so it is shown exactly after an even
      number of clicks. */
  lemma {:induction false} PanelShownIffEvenClicks(n: nat)
    ensures TogglePanel(TogglePanel(PanelAfter(n))) == PanelAfter(n)
    ensures PanelAfter(n) <==> n % 2 == 0
  {
    if n > 0 {
      PanelShownIffEvenClicks(n - 1);
    }
  }
}
