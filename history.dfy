/**
 * `agent/chat/history.py`: the per-chat conversation history store.
 * Each chat keeps its messages and the time of its last activity; a chat
 * idle for longer than the TTL is forgotten, and a chat's history is capped
 * at twice the configured number of turns.  The monotonic clock the source
 * reads is the explicit `now` argument of every operation that reads it.
 */
module History {

  /** `_ChatHistory`: one chat's messages and its last activity time. */
  datatype ChatHistory<M> = ChatHistory(messages: seq<M>, lastActivity: int)

  type Chats<M> = map<string, ChatHistory<M>>

  // ------------------------------------------------------------ specification

  /** `_is_expired`: with a positive TTL, idle for strictly longer than it; a TTL of 0 or less never expires. */
  predicate ExpiredAt(ttl: int, lastActivity: int, now: int) {
    ttl > 0 && now - lastActivity > ttl
  }

  /** The turn limit: at most `2 * maxTurns` messages, keeping the newest; 0 or less means no limit. */
  function Capped<M>(maxTurns: int, ms: seq<M>): (r: seq<M>)
    ensures maxTurns > 0 ==> |r| <= 2 * maxTurns
    ensures |r| <= |ms| && r == ms[|ms| - |r|..]
    ensures maxTurns <= 0 || |ms| <= 2 * maxTurns ==> r == ms
    ensures maxTurns > 0 && |ms| > 2 * maxTurns ==> |r| == 2 * maxTurns
  {
    if maxTurns > 0 && |ms| > 2 * maxTurns then ms[|ms| - 2 * maxTurns..] else ms
  }

  /** Is the chat present and still live at `now`? */
  predicate LiveAt<M>(chats: Chats<M>, ttl: int, cid: string, now: int) {
    cid in chats && !ExpiredAt(ttl, chats[cid].lastActivity, now)
  }

  /** What `get` returns. */
  function Lookup<M>(chats: Chats<M>, ttl: int, cid: string, now: int): seq<M> {
    if LiveAt(chats, ttl, cid, now) then chats[cid].messages else []
  }

  /** The chats after `get`: an expired entry is dropped, a live one is touched. */
  function AfterGet<M>(chats: Chats<M>, ttl: int, cid: string, now: int): Chats<M> {
    if cid !in chats then chats
    else if ExpiredAt(ttl, chats[cid].lastActivity, now) then chats - {cid}
    else chats[cid := chats[cid].(lastActivity := now)]
  }

  /** The history `append` extends: the live one, or a new empty one. */
  function Base<M>(chats: Chats<M>, ttl: int, cid: string, now: int): seq<M> {
    if LiveAt(chats, ttl, cid, now) then chats[cid].messages else []
  }

  /** The chats after `append`. */
  function AfterAppend<M>(chats: Chats<M>, maxTurns: int, ttl: int, cid: string, incoming: seq<M>, now: int): Chats<M> {
    if incoming == [] then chats
    else chats[cid := ChatHistory(Capped(maxTurns, Base(chats, ttl, cid, now) + incoming), now)]
  }

  /** The chats after `_sweep_expired`: exactly the live ones. */
  function Swept<M>(chats: Chats<M>, ttl: int, now: int): Chats<M> {
    map cid | cid in chats && !ExpiredAt(ttl, chats[cid].lastActivity, now) :: chats[cid]
  }

  /** What every operation keeps: no stored history is empty, and none is over the cap. */
  predicate Bounded<M>(chats: Chats<M>, maxTurns: int) {
    forall cid :: cid in chats ==>
      chats[cid].messages != [] && (maxTurns > 0 ==> |chats[cid].messages| <= 2 * maxTurns)
  }

  // ------------------------------------------------------------ properties

  /** `get` on an unknown chat returns nothing and changes nothing. */
  lemma GetUnknown<M>(chats: Chats<M>, ttl: int, cid: string, now: int)
    requires cid !in chats
    ensures Lookup(chats, ttl, cid, now) == [] && AfterGet(chats, ttl, cid, now) == chats
  {
  }

  /** `get` on an expired chat returns nothing and forgets that chat only. */
  lemma GetExpired<M>(chats: Chats<M>, ttl: int, cid: string, now: int)
    requires cid in chats && ExpiredAt(ttl, chats[cid].lastActivity, now)
    ensures Lookup(chats, ttl, cid, now) == []
    ensures cid !in AfterGet(chats, ttl, cid, now)
    ensures forall other :: other != cid ==>
              (other in AfterGet(chats, ttl, cid, now) <==> other in chats)
  {
  }

  /** `get` on a live chat returns its messages unchanged and restarts its idle time at `now`. */
  lemma GetLive<M>(chats: Chats<M>, ttl: int, cid: string, now: int)
    requires LiveAt(chats, ttl, cid, now)
    ensures var after := AfterGet(chats, ttl, cid, now);
            Lookup(chats, ttl, cid, now) == chats[cid].messages &&
            cid in after && after[cid] == ChatHistory(chats[cid].messages, now) &&
            after.Keys == chats.Keys
  {
  }

  /** A TTL of 0 or less never expires anything: every stored chat stays live and a sweep keeps them all. */
  lemma NoTtlNeverExpires<M>(chats: Chats<M>, ttl: int, now: int)
    requires ttl <= 0
    ensures forall cid :: cid in chats ==> LiveAt(chats, ttl, cid, now)
    ensures Swept(chats, ttl, now) == chats
  {
  }

  /** Appending nothing is no activity at all: the chat is not even touched. */
  lemma AppendNothing<M>(chats: Chats<M>, maxTurns: int, ttl: int, cid: string, now: int)
    ensures AfterAppend(chats, maxTurns, ttl, cid, [], now) == chats
  {
  }

  /** After an append the chat holds the newest messages of its live history followed by the new ones, within the cap. */
  lemma AppendKeepsNewest<M>(chats: Chats<M>, maxTurns: int, ttl: int, cid: string, incoming: seq<M>, now: int)
    requires incoming != []
    ensures var after := AfterAppend(chats, maxTurns, ttl, cid, incoming, now);
            var all := Base(chats, ttl, cid, now) + incoming;
            cid in after && after[cid].lastActivity == now &&
            after[cid].messages == all[|all| - |after[cid].messages|..] &&
            (maxTurns > 0 ==> |after[cid].messages| <= 2 * maxTurns) &&
            (maxTurns <= 0 ==> after[cid].messages == all)
    ensures forall other :: other in chats && other != cid ==>
              other in AfterAppend(chats, maxTurns, ttl, cid, incoming, now) &&
              AfterAppend(chats, maxTurns, ttl, cid, incoming, now)[other] == chats[other]
  {
  }

  /** A missing or expired chat starts again from nothing: its old messages are gone. */
  lemma AppendStartsFresh<M>(chats: Chats<M>, maxTurns: int, ttl: int, cid: string, incoming: seq<M>, now: int)
    requires incoming != [] && !LiveAt(chats, ttl, cid, now)
    ensures AfterAppend(chats, maxTurns, ttl, cid, incoming, now)[cid].messages == Capped(maxTurns, incoming)
  {
    assert Base(chats, ttl, cid, now) + incoming == incoming;
  }

  /** Within the TTL, `get` returns what the last `append` stored. */
  lemma AppendThenGet<M>(chats: Chats<M>, maxTurns: int, ttl: int, cid: string, incoming: seq<M>, t1: int, t2: int)
    requires incoming != [] && !ExpiredAt(ttl, t1, t2)
    ensures Lookup(AfterAppend(chats, maxTurns, ttl, cid, incoming, t1), ttl, cid, t2) ==
            Capped(maxTurns, Base(chats, ttl, cid, t1) + incoming)
  {
  }

  /** A sweep keeps exactly the live chats, each unchanged. */
  lemma SweptExactlyLive<M>(chats: Chats<M>, ttl: int, now: int)
    ensures forall cid :: cid in Swept(chats, ttl, now) <==> LiveAt(chats, ttl, cid, now)
    ensures forall cid :: cid in Swept(chats, ttl, now) ==> Swept(chats, ttl, now)[cid] == chats[cid]
  {
  }

  /** Sweeping twice at the same time is sweeping once. */
  lemma SweepIdempotent<M>(chats: Chats<M>, ttl: int, now: int)
    ensures Swept(Swept(chats, ttl, now), ttl, now) == Swept(chats, ttl, now)
  {
  }

  /** Every operation keeps the stored histories non-empty and within the cap. */
  lemma BoundedPreserved<M>(chats: Chats<M>, maxTurns: int, ttl: int, cid: string, incoming: seq<M>, now: int)
    requires Bounded(chats, maxTurns)
    ensures Bounded(AfterGet(chats, ttl, cid, now), maxTurns)
    ensures Bounded(AfterAppend(chats, maxTurns, ttl, cid, incoming, now), maxTurns)
    ensures Bounded(Swept(chats, ttl, now), maxTurns)
    ensures Bounded(chats - {cid}, maxTurns)
  {
  }

  // ------------------------------------------------------------ the store

  /** `ConversationStore`. */
  class ConversationStore<M> {
    const maxTurns: int
    const ttlSeconds: int
    var chats: Chats<M>

    predicate Valid()
      reads this
    {
      Bounded(chats, maxTurns)
    }

    constructor (maxTurns: int, ttlSeconds: int)
      ensures this.maxTurns == maxTurns && this.ttlSeconds == ttlSeconds
      ensures chats == map[]
      ensures Valid()
    {
      this.maxTurns := maxTurns;
      this.ttlSeconds := ttlSeconds;
      chats := map[];
    }

    /** `get`: the chat's messages, or [] when it is missing or has expired (which drops it). */
    method Get(cid: string, now: int) returns (messages: seq<M>)
      requires Valid()
      modifies this
      ensures Valid()
      ensures messages == Lookup(old(chats), ttlSeconds, cid, now)
      ensures chats == AfterGet(old(chats), ttlSeconds, cid, now)
    {
      if cid !in chats {
        return [];
      }
      var entry := chats[cid];
      if ExpiredAt(ttlSeconds, entry.lastActivity, now) {
        chats := chats - {cid};
        return [];
      }
      chats := chats[cid := entry.(lastActivity := now)];
      messages := entry.messages;
    }

    /** `append`: extend the chat's live history (or a new one), touch it, and enforce the turn limit. */
    method Append(cid: string, incoming: seq<M>, now: int)
      requires Valid()
      modifies this
      ensures Valid()
      ensures chats == AfterAppend(old(chats), maxTurns, ttlSeconds, cid, incoming, now)
    {
      if incoming == [] {
        return;
      }
      ghost var before := chats;
      var entry: ChatHistory<M>;
      if cid !in chats || ExpiredAt(ttlSeconds, chats[cid].lastActivity, now) {
        entry := ChatHistory([], now);
      } else {
        entry := chats[cid];
      }
      assert entry.messages == Base(before, ttlSeconds, cid, now);
      var messages := entry.messages + incoming;
      if maxTurns > 0 {
        var maxMessages := maxTurns * 2;
        if |messages| > maxMessages {
          messages := messages[|messages| - maxMessages..];
        }
      }
      assert messages == Capped(maxTurns, entry.messages + incoming);
      chats := chats[cid := ChatHistory(messages, now)];
      BoundedPreserved(before, maxTurns, ttlSeconds, cid, incoming, now);
    }

    /** `clear`: forget one chat. */
    method Clear(cid: string)
      requires Valid()
      modifies this
      ensures Valid()
      ensures chats == old(chats) - {cid}
    {
      chats := chats - {cid};
    }

    /** `clear_all`: forget every chat. */
    method ClearAll()
      modifies this
      ensures Valid()
      ensures chats == map[]
    {
      chats := map[];
    }

    /** `_sweep_expired`: collect the expired chats, then delete them one by one. */
    method SweepExpired(now: int)
      requires Valid()
      modifies this
      ensures Valid()
      ensures chats == Swept(old(chats), ttlSeconds, now)
    {
      if ttlSeconds <= 0 {
        assert Swept(chats, ttlSeconds, now) == chats;
        return;
      }
      var expired := set cid | cid in chats && now - chats[cid].lastActivity > ttlSeconds;
      var pending := expired;
      while pending != {}
        invariant pending <= expired
        invariant chats == old(chats) - (expired - pending)
        decreases |pending|
      {
        var cid :| cid in pending;
        chats := chats - {cid};
        pending := pending - {cid};
      }
      assert chats == old(chats) - expired;
    }

    /** `active_chats`: sweep, then count what is left. */
    method ActiveChats(now: int) returns (n: nat)
      requires Valid()
      modifies this
      ensures Valid()
      ensures chats == Swept(old(chats), ttlSeconds, now)
      ensures n == |chats|
    {
      SweepExpired(now);
      n := |chats|;
    }
  }
}
