/**
 * The records of the chat store and the pure rules the handlers apply to the
 * list of chats: `generate_chat_id`, the first-match lookup by id, the filter
 * used by delete, and the invariant on ids that these rules keep.
 */
module Chats {

  import opened Wrappers

  const USER_ROLE: string := "user"
  const ASSISTANT_ROLE: string := "assistant"

  /** Title of a chat created without one. */
  const DEFAULT_TITLE: string := "Новый чат"

  /** One message; `images` is None when the record has no "images" key. */
  datatype Message = Message(role: string, content: string, images: Option<seq<string>>, timestamp: string)

  datatype Chat = Chat(id: int, title: string, createdAt: string, messages: seq<Message>)

  /** The ids of the chats, in store order. */
  function Ids(chats: seq<Chat>): seq<int>
  {
    seq(|chats|, i requires 0 <= i < |chats| => chats[i].id)
  }

  /** Every chat id is positive and no two chats share an id. */
  ghost predicate IdsValid(chats: seq<Chat>)
  {
    && (forall i :: 0 <= i < |chats| ==> chats[i].id > 0)
    && (forall i, j :: 0 <= i < j < |chats| ==> chats[i].id != chats[j].id)
  }

  /** `max([chat['id'] for chat in chats] or [0])`. */
  function MaxId(chats: seq<Chat>): (m: int)
    ensures chats == [] ==> m == 0
    ensures forall i :: 0 <= i < |chats| ==> chats[i].id <= m
    ensures chats != [] ==> exists i :: 0 <= i < |chats| && chats[i].id == m
    decreases |chats|
  {
    if chats == [] then 0
    else if |chats| == 1 then chats[0].id
    else
      var rest := MaxId(chats[1..]);
      if chats[0].id >= rest then chats[0].id else rest
  }

  /** `generate_chat_id`: one more than the largest id, 1 for an empty store. */
  function NextId(chats: seq<Chat>): (id: int)
    ensures chats == [] ==> id == 1
    ensures forall i :: 0 <= i < |chats| ==> chats[i].id < id
    ensures chats != [] ==> exists i :: 0 <= i < |chats| && id == chats[i].id + 1
  {
    MaxId(chats) + 1
  }

  /** The chat `next(c for c in chats if c["id"] == id)` finds: the first one with that id. */
  function FindIndex(chats: seq<Chat>, id: int): (r: Option<nat>)
    ensures r.Some? ==> r.value < |chats| && chats[r.value].id == id
    ensures r.Some? ==> forall j :: 0 <= j < r.value ==> chats[j].id != id
    ensures r.None? <==> forall j :: 0 <= j < |chats| ==> chats[j].id != id
    decreases |chats|
  {
    if chats == [] then None
    else if chats[0].id == id then Some(0)
    else match FindIndex(chats[1..], id)
      case None => None
      case Some(k) => Some(k + 1)
  }

  /** `[c for c in chats if c["id"] != id]`. */
  function Without(chats: seq<Chat>, id: int): (r: seq<Chat>)
    ensures |r| <= |chats|
    decreases |chats|
  {
    if chats == [] then []
    else (if chats[0].id != id then [chats[0]] else []) + Without(chats[1..], id)
  }

  /** Delete keeps exactly the chats whose id differs. */
  lemma {:induction false} WithoutMembers(chats: seq<Chat>, id: int)
    ensures forall c :: c in Without(chats, id) <==> c in chats && c.id != id
    decreases |chats|
  {
    if chats != [] {
      WithoutMembers(chats[1..], id);
      assert chats == [chats[0]] + chats[1..];
    }
  }

  /** In a store that keeps the invariant, a lookup finds the only chat with the id. */
  lemma FindIndexUnique(chats: seq<Chat>, i: nat)
    requires IdsValid(chats)
    requires i < |chats|
    ensures FindIndex(chats, chats[i].id) == Some(i)
  {
  }

  /** A store that keeps the invariant has no chat 0, the id a missing chat_id stands for. */
  lemma NoChatZero(chats: seq<Chat>)
    requires IdsValid(chats)
    ensures FindIndex(chats, 0) == None
  {
  }

  /** A fresh id keeps the invariant when appended. */
  lemma AppendNextIdValid(chats: seq<Chat>, c: Chat)
    requires IdsValid(chats)
    requires c.id == NextId(chats)
    ensures IdsValid(chats + [c])
  {
  }

  /** Changing chats without changing their ids keeps the invariant. */
  lemma SameIdsValid(before: seq<Chat>, after: seq<Chat>)
    requires IdsValid(before)
    requires Ids(after) == Ids(before)
    ensures IdsValid(after)
  {
    assert forall i :: 0 <= i < |after| ==> after[i].id == Ids(before)[i];
  }

  /** Filtering out an id that no chat has changes nothing. */
  lemma {:induction false} WithoutAbsent(chats: seq<Chat>, id: int)
    requires forall j :: 0 <= j < |chats| ==> chats[j].id != id
    ensures Without(chats, id) == chats
    decreases |chats|
  {
    if chats != [] {
      WithoutAbsent(chats[1..], id);
    }
  }

  /** The invariant holds of the chats after the first. */
  lemma IdsValidTail(chats: seq<Chat>)
    requires IdsValid(chats) && chats != []
    ensures IdsValid(chats[1..])
  {
    var tail := chats[1..];
    forall i, j | 0 <= i < j < |tail|
      ensures tail[i].id != tail[j].id
    {
      assert tail[i] == chats[i + 1] && tail[j] == chats[j + 1];
    }
  }

  /** In a store that keeps the invariant, delete removes exactly the chat with the id, keeping order. */
  lemma {:induction false} WithoutAt(chats: seq<Chat>, i: nat)
    requires IdsValid(chats)
    requires i < |chats|
    ensures Without(chats, chats[i].id) == chats[..i] + chats[i + 1..]
    decreases i
  {
    var id := chats[i].id;
    var tail := chats[1..];
    IdsValidTail(chats);
    if i == 0 {
      assert forall j :: 0 <= j < |tail| ==> tail[j] == chats[j + 1];
      WithoutAbsent(tail, id);
      assert Without(chats, id) == [] + tail;
      assert chats[..0] == [];
    } else {
      assert chats[0].id != id;
      assert tail[i - 1] == chats[i];
      WithoutAt(tail, i - 1);
      assert Without(chats, id) == [chats[0]] + (tail[..i - 1] + tail[i..]);
      assert chats[..i] == [chats[0]] + tail[..i - 1];
      assert chats[i + 1..] == tail[i..];
    }
  }

  /** Delete keeps the invariant. */
  lemma {:induction false} WithoutValid(chats: seq<Chat>, id: int)
    requires IdsValid(chats)
    ensures IdsValid(Without(chats, id))
    decreases |chats|
  {
    if chats != [] {
      var tail := chats[1..];
      IdsValidTail(chats);
      WithoutValid(tail, id);
      var rest := Without(tail, id);
      if chats[0].id != id {
        forall j | 0 <= j < |rest|
          ensures rest[j].id != chats[0].id
        {
          WithoutMembers(tail, id);
          assert rest[j] in tail;
          var k :| 0 <= k < |tail| && tail[k] == rest[j];
          assert tail[k] == chats[k + 1];
        }
        assert Without(chats, id) == [chats[0]] + rest;
      } else {
        assert Without(chats, id) == [] + rest;
      }
    }
  }
}
