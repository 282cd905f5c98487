/**
 * The live cursor layer (components/RealtimeCursors.tsx): one presence channel
 * per mounted component, a colour picked once, a published payload per pointer
 * move, and a render of every other participant's latest record. The channel
 * itself is not modelled; what it delivers arrives as method arguments.
 */
module RealtimeCursors {
  import opened Types
  import opened Seqs

  const Palette: seq<string> :=
    ["#3ecf8e", "#3b82f6", "#ef4444", "#f59e0b", "#8b5cf6", "#ec4899", "#06b6d4", "#10b981"]

  const SubscribedStatus := "SUBSCRIBED"
  const Anonymous := "Anonymous"

  /** `user.user_metadata?.username || 'Anonymous'`. */
  function DisplayName(u: User): (r: string)
    ensures r != ""
    ensures r == Anonymous || Some(r) == u.username
    ensures Truthy(u.username) ==> r == u.username.value
  {
    if Truthy(u.username) then u.username.value else Anonymous
  }

  /** `Object.entries(presenceState())`: each presence key with its list of payloads, in key order. */
  type PresenceEntries = seq<(string, seq<Cursor>)>

  function Keys<X>(entries: seq<(string, X)>): (r: seq<string>)
    ensures |r| == |entries|
    ensures forall i :: 0 <= i < |entries| ==> r[i] == entries[i].0
  {
    seq(|entries|, i requires 0 <= i < |entries| => entries[i].0)
  }

  /**
   * The render: every key other than `self` whose presence list is not empty,
   * drawn from the first payload of its list, in the order of the entries.
   */
  function Rendered(entries: PresenceEntries, self: Option<string>): (r: seq<(string, Cursor)>)
    ensures IsSubsequence(Keys(r), Keys(entries))
    ensures forall k, c :: (k, c) in r ==>
      && Some(k) != self
      && exists j :: 0 <= j < |entries| && entries[j].0 == k && |entries[j].1| > 0 && entries[j].1[0] == c
    ensures forall j :: 0 <= j < |entries| && Some(entries[j].0) != self && |entries[j].1| > 0 ==>
      (entries[j].0, entries[j].1[0]) in r
  {
    if entries == [] then []
    else
      var key := entries[0].0;
      var presences := entries[0].1;
      var rest := Rendered(entries[1..], self);
      assert Keys(entries)[1..] == Keys(entries[1..]);
      assert forall j :: 0 < j < |entries| ==> entries[j] == entries[1..][j - 1];
      if Some(key) == self || |presences| == 0 then
        rest
      else
        var r := [(key, presences[0])] + rest;
        assert Keys(r)[1..] == Keys(rest);
        r
  }

  /** A key the latest snapshot does not hold is not drawn, whatever earlier snapshots held. */
  lemma AbsentKeyNotRendered(entries: PresenceEntries, self: Option<string>, k: string)
    requires k !in Keys(entries)
    ensures k !in Keys(Rendered(entries, self))
  {
    if k in Keys(Rendered(entries, self)) {
      SubsequenceMembers(Keys(Rendered(entries, self)), Keys(entries), k);
    }
  }

  /** The component instance, from its first render until it is torn down. */
  class CursorLayer {
    const user: Option<User>
    const myColor: string
    /** The last presence snapshot delivered by a sync event. */
    var cursors: PresenceEntries
    /** Every payload handed to `channel.track`, in order. */
    var published: seq<Cursor>
    var subscribed: bool
    var listening: bool

    /** A payload that carries this session's identity, display name and colour. */
    predicate Mine(c: Cursor) {
      user.Some? && c.userId == user.value.id && c.username == DisplayName(user.value) && c.color == myColor
    }

    ghost predicate Valid()
      reads this
    {
      && myColor in Palette
      && listening == subscribed
      && (subscribed ==> user.Some?)
      && forall i :: 0 <= i < |published| ==> Mine(published[i])
    }

    /** The payload `track` receives for a pointer at (`x`, `y`). */
    function Payload(x: real, y: real): (r: Cursor)
      requires user.Some?
      ensures Mine(r) && r.x == x && r.y == y
    {
      Cursor(user.value.id, DisplayName(user.value), x, y, myColor)
    }

    function Self(): Option<string> {
      if user.Some? then Some(user.value.id) else None
    }

    /** What the component draws. */
    function Visible(): seq<(string, Cursor)>
      reads this
    {
      Rendered(cursors, Self())
    }

    /** First render: no cursors, and a colour drawn once; `colorIndex` stands for the random draw. */
    constructor (user: Option<User>, colorIndex: nat)
      requires colorIndex < |Palette|
      ensures Valid()
      ensures this.user == user && myColor == Palette[colorIndex]
      ensures cursors == [] && published == [] && !subscribed && !listening
    {
      this.user := user;
      myColor := Palette[colorIndex];
      cursors := [];
      published := [];
      subscribed := false;
      listening := false;
    }

    /** The effect: without a user nothing happens; otherwise subscribe and install the pointer listener. */
    method Mount()
      requires Valid() && !subscribed
      modifies this
      ensures Valid()
      ensures subscribed == user.Some? && listening == user.Some?
      ensures cursors == old(cursors) && published == old(published)
    {
      if user.Some? {
        subscribed := true;
        listening := true;
      }
    }

    /** The subscribe callback: only the `SUBSCRIBED` status publishes the initial payload at (0, 0). */
    method OnStatus(status: string)
      requires Valid()
      modifies this
      ensures Valid()
      ensures published == if subscribed && status == SubscribedStatus
                           then old(published) + [Payload(0.0, 0.0)] else old(published)
      ensures cursors == old(cursors) && subscribed == old(subscribed) && listening == old(listening)
    {
      if subscribed && status == SubscribedStatus {
        published := published + [Payload(0.0, 0.0)];
      }
    }

    /** A sync event replaces the cursors wholesale with the channel's snapshot. */
    method OnSync(snapshot: PresenceEntries)
      requires Valid()
      modifies this
      ensures Valid()
      ensures cursors == if subscribed then snapshot else old(cursors)
      ensures published == old(published) && subscribed == old(subscribed) && listening == old(listening)
      ensures subscribed ==> Visible() == Rendered(snapshot, Self())
      ensures subscribed ==> forall k :: k in Keys(old(cursors)) && k !in Keys(snapshot) ==> k !in Keys(Visible())
    {
      if subscribed {
        cursors := snapshot;
        forall k | k in Keys(old(cursors)) && k !in Keys(snapshot) ensures k !in Keys(Visible()) {
          AbsentKeyNotRendered(snapshot, Self(), k);
        }
      }
    }

    /** A join event is only logged. */
    method OnJoin(key: string, newPresences: seq<Cursor>)
      ensures unchanged(this)
    {
    }

    /** A leave event is only logged. */
    method OnLeave(key: string, leftPresences: seq<Cursor>)
      ensures unchanged(this)
    {
    }

    /** The pointer listener: one payload per move, at the normalised position (`x`, `y`). */
    method OnMouseMove(x: real, y: real)
      requires Valid()
      modifies this
      ensures Valid()
      ensures published == if listening then old(published) + [Payload(x, y)] else old(published)
      ensures cursors == old(cursors) && subscribed == old(subscribed) && listening == old(listening)
    {
      if listening {
        published := published + [Payload(x, y)];
      }
    }

    /** The effect's cleanup: remove the listener and unsubscribe. */
    method Teardown()
      requires Valid()
      modifies this
      ensures Valid()
      ensures !listening && !subscribed
      ensures cursors == old(cursors) && published == old(published)
    {
      listening := false;
      subscribed := false;
    }
  }

  /**
   * What a caller can conclude from the contracts alone: a session's payloads
   * all carry the one colour and identity, a stale peer vanishes on the next
   * sync, and nothing is published after teardown.
   */
  method SessionScenario(me: User, peer: Cursor, colorIndex: nat)
    requires colorIndex < |Palette|
    requires peer.userId != me.id
  {
    var layer := new CursorLayer(Some(me), colorIndex);
    layer.Mount();
    layer.OnStatus("CHANNEL_ERROR");
    assert layer.published == [];
    layer.OnStatus(SubscribedStatus);
    layer.OnSync([(peer.userId, [peer])]);
    assert layer.Visible() == [(peer.userId, peer)];
    layer.OnMouseMove(50.0, 50.0);
    assert |layer.published| == 2 && layer.published[1].x == 50.0;
    assert layer.published[0].color == layer.published[1].color == Palette[colorIndex];
    layer.OnSync([(me.id, layer.published[1..])]);
    assert layer.Visible() == [];
    layer.Teardown();
    layer.OnMouseMove(10.0, 10.0);
    assert |layer.published| == 2;
  }
}
