/** The per-session store, and the wrappers that assign whole maps by single mutations. */
module ConversationStore {
  import opened JsValues

  /** `body` stands for everything in a conversation but its id, including which object it is:
      two conversations are equal when they are the same object. */
  datatype Conversation = Conversation(id: string, body: Value)
  datatype TitleState = TitleState(stage: string, autoRenameCount: nat)

  datatype Slice = Slice(
    conversations: map<string, Conversation>,
    sessionLoading: map<string, bool>,
    sessionTodos: map<string, Value>,
    sessionTitleStates: map<string, TitleState>,
    streamAbortHandles: map<string, string>)

  /** The slice without the sessions in `ids`. */
  function Without(s: Slice, ids: set<string>): Slice {
    Slice(
      s.conversations - ids, s.sessionLoading - ids, s.sessionTodos - ids, s.sessionTitleStates - ids,
      s.streamAbortHandles - ids)
  }

  class Store {
    var state: Slice

    constructor ()
      ensures state == Slice(map[], map[], map[], map[], map[])
    {
      state := Slice(map[], map[], map[], map[], map[]);
    }

    method SetConversation(conversation: Conversation)
      modifies this
      ensures state == old(state).(conversations := old(state).conversations[conversation.id := conversation])
    {
      state := state.(conversations := state.conversations[conversation.id := conversation]);
    }

    method RemoveSession(sessionId: string)
      modifies this
      ensures state == Without(old(state), {sessionId})
    {
      var gone := {sessionId};
      state := Slice(
        state.conversations - gone, state.sessionLoading - gone, state.sessionTodos - gone,
        state.sessionTitleStates - gone, state.streamAbortHandles - gone);
    }

    method SetSessionLoading(sessionId: string, loading: bool)
      modifies this
      ensures state == old(state).(sessionLoading := old(state).sessionLoading[sessionId := loading])
    {
      state := state.(sessionLoading := state.sessionLoading[sessionId := loading]);
    }

    method SetStreamAbortHandle(sessionId: string, handleId: string)
      modifies this
      ensures state == old(state).(streamAbortHandles := old(state).streamAbortHandles[sessionId := handleId])
    {
      state := state.(streamAbortHandles := state.streamAbortHandles[sessionId := handleId]);
    }

    method ClearStreamAbortHandle(sessionId: string)
      modifies this
      ensures state == old(state).(streamAbortHandles := old(state).streamAbortHandles - {sessionId})
    {
      state := state.(streamAbortHandles := state.streamAbortHandles - {sessionId});
    }
  }

  // ----- whole-map assignment -----

  function At<V>(m: map<string, V>, id: string): Option<V> {
    if id in m then Some(m[id]) else None
  }

  /** Every conversation that is new or changed is stored under its own id. */
  predicate KeyedByOwnId(prev: map<string, Conversation>, value: map<string, Conversation>) {
    forall id :: id in value && At(prev, id) != Some(value[id]) ==> value[id].id == id
  }

  /** `setConversations`. The assignment takes effect exactly when what is new or changed is
      stored under its own id; then the dropped sessions are gone from all five maps and
      nothing else has changed. */
  method SetConversations(store: Store, value: map<string, Conversation>)
    modifies store
    ensures store.state.conversations == value <==> KeyedByOwnId(old(store.state).conversations, value)
    ensures var prev := old(store.state);
            KeyedByOwnId(prev.conversations, value) ==>
              store.state == Without(prev, prev.conversations.Keys - value.Keys).(conversations := value)
    ensures NothingMisplaced(store.state.conversations, old(store.state).conversations, value)
  {
    var prev := store.state.conversations;
    AssignConversations(store, prev, value);
    ghost var merged := store.state.conversations;
    DropSessions(store, prev.Keys - value.Keys);
    assert store.state.conversations == merged - (prev.Keys - value.Keys);
    if store.state.conversations == value {
      forall id | id in value ensures !IsMisplaced(prev, value, id) {
        assert At(merged, id) == Some(value[id]);
      }
    }
    if KeyedByOwnId(prev, value) {
      forall id ensures At(store.state.conversations, id) == At(value, id) {
        assert At(merged, id) == At(value, id).Or(At(prev, id));
      }
      SameEntries(store.state.conversations, value);
    }
  }

  const FILED_UNDER_ANOTHER_ID := map["a" := Conversation("b", Null)]

  /** A conversation filed under an id that is not its own does not get there. */
  method MisplacedConversationIsNotStored() returns (store: Store)
    ensures At(store.state.conversations, "a") != Some(FILED_UNDER_ANOTHER_ID["a"])
    ensures store.state.conversations != FILED_UNDER_ANOTHER_ID
  {
    store := new Store();
    SetConversations(store, FILED_UNDER_ANOTHER_ID);
    assert IsMisplaced(map[], FILED_UNDER_ANOTHER_ID, "a");
  }

  lemma SameEntries<V>(a: map<string, V>, b: map<string, V>)
    requires forall id :: At(a, id) == At(b, id)
    ensures a == b
  {
    assert forall id :: id in a <==> At(a, id).Some?;
    assert forall id :: id in b <==> At(b, id).Some?;
    assert forall id :: id in a ==> At(a, id) == Some(a[id]) && At(b, id) == Some(b[id]);
  }

  /** The conversations on the way from `prev` to `value`: those of `todo` have not been visited. */
  ghost predicate Merging(now: map<string, Conversation>, prev: map<string, Conversation>,
                          value: map<string, Conversation>, todo: set<string>) {
    forall id :: At(now, id) == if id in todo then At(prev, id) else At(value, id).Or(At(prev, id))
  }

  /** A new or changed conversation that carries another id. */
  predicate IsMisplaced(prev: map<string, Conversation>, value: map<string, Conversation>, id: string) {
    id in value && At(prev, id) != Some(value[id]) && value[id].id != id
  }

  /** Misplaced conversations do not get where they belong. */
  ghost predicate NothingMisplaced(now: map<string, Conversation>, prev: map<string, Conversation>,
                                   value: map<string, Conversation>) {
    forall id :: IsMisplaced(prev, value, id) ==> At(now, id) != Some(value[id])
  }

  lemma MergeOne(now: map<string, Conversation>, prev: map<string, Conversation>, value: map<string, Conversation>,
                 todo: set<string>, id: string)
    requires KeyedByOwnId(prev, value) && Merging(now, prev, value, todo)
    requires id in todo && id in value
    ensures Merging(if At(prev, id) != Some(value[id]) then now[value[id].id := value[id]] else now, prev, value,
                    todo - {id})
  {
  }

  lemma MisplaceOne(now: map<string, Conversation>, prev: map<string, Conversation>, value: map<string, Conversation>,
                    id: string)
    requires NothingMisplaced(now, prev, value) && id in value
    ensures NothingMisplaced(now[value[id].id := value[id]], prev, value)
  {
  }

  /** The first loop, over the new ids in any order. */
  method AssignConversations(store: Store, prev: map<string, Conversation>, value: map<string, Conversation>)
    requires store.state.conversations == prev
    modifies store
    ensures store.state == old(store.state).(conversations := store.state.conversations)
    ensures KeyedByOwnId(prev, value) ==> Merging(store.state.conversations, prev, value, {})
    ensures NothingMisplaced(store.state.conversations, prev, value)
  {
    var todo := value.Keys;
    while todo != {}
      invariant todo <= value.Keys
      invariant store.state == old(store.state).(conversations := store.state.conversations)
      invariant KeyedByOwnId(prev, value) ==> Merging(store.state.conversations, prev, value, todo)
      invariant NothingMisplaced(store.state.conversations, prev, value)
      decreases todo
    {
      hide KeyedByOwnId, Merging, NothingMisplaced;
      var id :| id in todo;
      ghost var before := store.state.conversations;
      if KeyedByOwnId(prev, value) {
        MergeOne(before, prev, value, todo, id);
      }
      if At(prev, id) != Some(value[id]) {
        MisplaceOne(before, prev, value, id);
        store.SetConversation(value[id]);
      }
      todo := todo - {id};
    }
  }

  /** The second loop, over the dropped ids in any order. */
  method DropSessions(store: Store, ids: set<string>)
    modifies store
    ensures store.state == Without(old(store.state), ids)
  {
    var todo := ids;
    while todo != {}
      invariant todo <= ids
      invariant store.state == Without(old(store.state), ids - todo)
      decreases todo
    {
      var id :| id in todo;
      ghost var done := ids - todo;
      store.RemoveSession(id);
      todo := todo - {id};
      assert ids - todo == done + {id};
      WithoutTwice(old(store.state), done, {id});
    }
    assert ids - {} == ids;
  }

  lemma WithoutTwice(s: Slice, a: set<string>, b: set<string>)
    ensures Without(Without(s, a), b) == Without(s, a + b)
  {
    var left, right := Without(Without(s, a), b), Without(s, a + b);
    assert left.conversations == right.conversations;
    assert left.sessionLoading == right.sessionLoading;
    assert left.sessionTodos == right.sessionTodos;
    assert left.sessionTitleStates == right.sessionTitleStates;
    assert left.streamAbortHandles == right.streamAbortHandles;
  }

  /** A removed session is in none of the five maps, and the others are as they were. */
  lemma RemovedIsGone(s: Slice, ids: set<string>, id: string)
    ensures var t := Without(s, ids);
            if id in ids then
              && id !in t.conversations && id !in t.sessionLoading && id !in t.sessionTodos
              && id !in t.sessionTitleStates && id !in t.streamAbortHandles
            else
              && At(t.conversations, id) == At(s.conversations, id)
              && At(t.sessionLoading, id) == At(s.sessionLoading, id)
              && At(t.sessionTodos, id) == At(s.sessionTodos, id)
              && At(t.sessionTitleStates, id) == At(s.sessionTitleStates, id)
              && At(t.streamAbortHandles, id) == At(s.streamAbortHandles, id)
  {
  }

  /** `setSessionLoading`: afterwards the flags agree with the argument as truth values. */
  method AssignSessionLoading(store: Store, value: map<string, bool>)
    modifies store
    ensures forall id :: At(store.state.sessionLoading, id) == Some(true) <==> At(value, id) == Some(true)
    ensures forall id :: id !in value && At(old(store.state).sessionLoading, id) != Some(true) ==>
              At(store.state.sessionLoading, id) == At(old(store.state).sessionLoading, id)
    ensures store.state == old(store.state).(sessionLoading := store.state.sessionLoading)
  {
    var prev := store.state.sessionLoading;
    var todo := prev.Keys + value.Keys;
    while todo != {}
      invariant todo <= prev.Keys + value.Keys
      invariant forall id :: id in todo ==> At(store.state.sessionLoading, id) == At(prev, id)
      invariant forall id :: id !in todo ==>
                  (At(store.state.sessionLoading, id) == Some(true) <==> At(value, id) == Some(true))
      invariant forall id :: id !in value && At(prev, id) != Some(true) ==>
                  At(store.state.sessionLoading, id) == At(prev, id)
      invariant store.state == old(store.state).(sessionLoading := store.state.sessionLoading)
      decreases todo
    {
      var id :| id in todo;
      var wanted := At(value, id) == Some(true);
      var current := At(prev, id) == Some(true);
      if wanted != current {
        store.SetSessionLoading(id, wanted);
      }
      todo := todo - {id};
    }
  }

  function NonEmpty(handle: Option<string>): Option<string> {
    if handle == Some("") then None else handle
  }

  /** `setStreamAbortHandles`: afterwards the handles agree with the non-empty ones of the argument. */
  method AssignStreamAbortHandles(store: Store, value: map<string, string>)
    modifies store
    ensures forall id :: NonEmpty(At(store.state.streamAbortHandles, id)) == NonEmpty(At(value, id))
    ensures forall id :: At(store.state.streamAbortHandles, id) == Some("") ==>
              At(old(store.state).streamAbortHandles, id) == Some("") && At(value, id) == Some("")
    ensures store.state == old(store.state).(streamAbortHandles := store.state.streamAbortHandles)
  {
    var prev := store.state.streamAbortHandles;
    var todo := prev.Keys + value.Keys;
    while todo != {}
      invariant todo <= prev.Keys + value.Keys
      invariant forall id :: id in todo ==> At(store.state.streamAbortHandles, id) == At(prev, id)
      invariant forall id :: id !in todo ==>
                  && NonEmpty(At(store.state.streamAbortHandles, id)) == NonEmpty(At(value, id))
                  && (At(store.state.streamAbortHandles, id) == Some("") ==>
                        At(prev, id) == Some("") && At(value, id) == Some(""))
      invariant store.state == old(store.state).(streamAbortHandles := store.state.streamAbortHandles)
      decreases todo
    {
      var id :| id in todo;
      var wanted := At(value, id);
      if wanted != At(prev, id) {
        if wanted.Some? && wanted.value != "" {
          store.SetStreamAbortHandle(id, wanted.value);
        } else {
          store.ClearStreamAbortHandle(id);
        }
      }
      todo := todo - {id};
    }
  }
}
