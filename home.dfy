/**
  The home page of the widget (src/pages/Home.jsx): the identity check that
  runs once when the page loads, the creation of a conversation when the chat
  is opened, and the "refresh" that starts a new one. All three work on
  `localStorage`, which links a stored conversation to the identity it was
  created for: `conversationIdSessionId` holds `conversationId + sessionId`
  for an anonymous session, `conversationIdEmail` holds
  `conversationId + email` for an e-mail identity, and `isEmailConversation`
  ("false" or "true") says which of the two applies.
 */
module Home {
  import opened Js
  import opened Storage

  const ErrorMessage := "An error occurred. Please try again."

  /** The keys a session-mode mismatch removes. */
  const SessionPurge: set<string> := {ConversationIdKey, SessionIdKey, ConversationIdSessionIdKey}

  /** The keys an e-mail-mode mismatch removes. */
  const EmailPurge: set<string> :=
    {IsEmailConversationKey, ConversationIdKey, SessionIdKey, ConversationIdSessionIdKey}

  /** The keys creating a conversation may write. */
  const CreateKeys: set<string> :=
    {SessionIdKey, ConversationIdSessionIdKey, ConversationIdEmailKey,
     GreetingMessageKey, ConversationIdKey, IsEmailConversationKey}

  /** The keys a refresh writes. */
  const RefreshKeys: set<string> := {GreetingMessageKey, ConversationIdKey, SessionIdKey}

  /** Only the exact string "false" selects session mode (`null == "false"`
      is false, so an absent flag means e-mail mode). */
  predicate InSessionMode(items: map<string, string>)
  {
    Get(items, IsEmailConversationKey) == Some("false")
  }

  /** The stored `conversationIdSessionId` equals `conversationId + sessionId`
      computed from the stored items. */
  predicate SessionLinked(items: map<string, string>)
  {
    StrictEquals(Get(items, ConversationIdSessionIdKey),
      Plus(OfNullable(Get(items, ConversationIdKey)), OfNullable(Get(items, SessionIdKey))))
  }

  /** The stored `conversationIdEmail` equals `conversationId + email`
      computed from the stored items. */
  predicate EmailLinked(items: map<string, string>)
  {
    StrictEquals(Get(items, ConversationIdEmailKey),
      Plus(OfNullable(Get(items, ConversationIdKey)), OfNullable(Get(items, EmailKey))))
  }

  /** The linkage check of the mode the store is in passes. */
  predicate Linked(items: map<string, string>)
  {
    if InSessionMode(items) then SessionLinked(items) else EmailLinked(items)
  }

  /** The first step of the load effect: the query's `email` parameter is
      always written (an absent one as the string "null"), and a non-empty one
      drops the anonymous session. */
  function ApplyQueryEmail(items: map<string, string>, query: Option<string>): (r: map<string, string>)
    ensures Get(r, EmailKey) == Some(if query.Some? then query.value else "null")
    ensures SessionIdKey in r <==> SessionIdKey in items && (query == None || query == Some(""))
    ensures forall k :: k != EmailKey ==> Get(r, k) == Get(items, k) || (k == SessionIdKey && Get(r, k) == None)
  {
    var written := items[EmailKey := ToStr(OfNullable(query))];
    if Truthy(OfNullable(query)) then written - {SessionIdKey} else written
  }

  /** The second step of the load effect: recompute the linkage key of the
      current mode and, on a mismatch, purge that mode's keys. It only ever
      removes keys; which ones depends on the mode (the e-mail branch also
      drops the mode flag, the session branch does not), and afterwards a
      stored conversation is always linked to the current identity. */
  function Validate(items: map<string, string>): (r: map<string, string>)
    ensures forall k :: k in r ==> k in items && r[k] == items[k]
    ensures Linked(items) ==> r == items
    ensures !Linked(items) && InSessionMode(items) ==> r.Keys == items.Keys - SessionPurge
    ensures !Linked(items) && !InSessionMode(items) ==> r.Keys == items.Keys - EmailPurge
    ensures ConversationIdKey in r ==> Linked(r)
  {
    if InSessionMode(items) then
      if SessionLinked(items) then items else items - SessionPurge
    else
      if EmailLinked(items) then items else items - EmailPurge
  }

  /** The whole load effect (Home.jsx lines 20-58). */
  function AfterLoad(items: map<string, string>, query: Option<string>): (r: map<string, string>)
    ensures Get(r, EmailKey) == Some(if query.Some? then query.value else "null")
    ensures ConversationIdKey in r ==> Linked(r)
    ensures SessionIdKey in r ==> query == None || query == Some("")
  {
    Validate(ApplyQueryEmail(items, query))
  }

  /** What a 201 response to `POST /conversations/` carries. The id is a
      string; `session_id` is absent (undefined) for an e-mail identity. */
  datatype NewConversation = NewConversation(id: string, sessionId: Value, greetingMessage: Value)

  /** The outcome of `POST /conversations/`: a response (axios resolves for
      2xx statuses) or a thrown error (network failure or non-2xx status). */
  datatype CreateOutcome = Thrown | Response(status: int, data: NewConversation)

  /** The writes `handleOpenChat` makes after a 201: the linkage key of the
      mode the response selects, the greeting, the id and the mode flag. The
      result passes the load effect's linkage check, and no key outside those
      six changes. */
  function AfterCreate(items: map<string, string>, c: NewConversation): (r: map<string, string>)
    ensures Get(r, ConversationIdKey) == Some(c.id)
    ensures Get(r, GreetingMessageKey) == Some(ToStr(c.greetingMessage))
    ensures Get(r, IsEmailConversationKey) == Some(if Truthy(c.sessionId) then "false" else "true")
    ensures Truthy(c.sessionId) ==>
      && Get(r, SessionIdKey) == Some(ToStr(c.sessionId))
      && Get(r, ConversationIdSessionIdKey) == Some(c.id + ToStr(c.sessionId))
      && Get(r, ConversationIdEmailKey) == Get(items, ConversationIdEmailKey)
    ensures !Truthy(c.sessionId) ==>
      && Get(r, ConversationIdEmailKey) == Some(c.id + ToStr(OfNullable(Get(items, EmailKey))))
      && Get(r, SessionIdKey) == Get(items, SessionIdKey)
      && Get(r, ConversationIdSessionIdKey) == Get(items, ConversationIdSessionIdKey)
    ensures forall k :: k !in CreateKeys ==> Get(r, k) == Get(items, k)
    ensures Linked(r)
  {
    var email := OfNullable(Get(items, EmailKey));
    var linked :=
      if Truthy(c.sessionId) then
        items[SessionIdKey := ToStr(c.sessionId)][ConversationIdSessionIdKey := Plus(Str(c.id), c.sessionId).value]
      else
        items[ConversationIdEmailKey := Plus(Str(c.id), email).value];
    linked[GreetingMessageKey := ToStr(c.greetingMessage)]
          [ConversationIdKey := c.id]
          [IsEmailConversationKey := ToStr(Bool(!Truthy(c.sessionId)))]
  }

  /** The writes `handleRefresh` makes after a 201: the greeting, the id and
      the session id (an absent one as "undefined"). It writes neither a
      linkage key nor the mode flag. */
  function AfterRefresh(items: map<string, string>, c: NewConversation): (r: map<string, string>)
    ensures Get(r, GreetingMessageKey) == Some(ToStr(c.greetingMessage))
    ensures Get(r, ConversationIdKey) == Some(c.id)
    ensures Get(r, SessionIdKey) == Some(ToStr(c.sessionId))
    ensures forall k :: k !in RefreshKeys ==> Get(r, k) == Get(items, k)
  {
    items[GreetingMessageKey := ToStr(c.greetingMessage)]
         [ConversationIdKey := c.id]
         [SessionIdKey := ToStr(c.sessionId)]
  }

  /** Round trip: a conversation created by `handleOpenChat` survives the
      next page load exactly when that load presents the identity it was
      created for. A session conversation survives when no e-mail is given
      (or, degenerately, when the session id is the string "null", which is
      what `conversationId + null` appends). An e-mail conversation survives
      when the query's e-mail, as stored, is the one stored at creation. A
      surviving conversation comes through the load untouched. */
  lemma {:induction false} CreatedConversationSurvivesLoad(
    items: map<string, string>, c: NewConversation, query: Option<string>)
    ensures var loaded := AfterLoad(AfterCreate(items, c), query);
      && (ConversationIdKey in loaded <==>
           if Truthy(c.sessionId) then !Truthy(OfNullable(query)) || ToStr(c.sessionId) == "null"
           else ToStr(OfNullable(query)) == ToStr(OfNullable(Get(items, EmailKey))))
      && (ConversationIdKey in loaded ==>
           loaded == ApplyQueryEmail(AfterCreate(items, c), query) && Get(loaded, ConversationIdKey) == Some(c.id))
  {
    var created := AfterCreate(items, c);
    var written := ApplyQueryEmail(created, query);
    var stored := ToStr(OfNullable(query));
    assert Get(written, ConversationIdKey) == Some(c.id);
    if Truthy(c.sessionId) {
      assert InSessionMode(written);
      var check := Plus(Str(c.id), OfNullable(Get(written, SessionIdKey)));
      if Truthy(OfNullable(query)) {
        assert check == Some(c.id + "null");
        if SessionLinked(written) {
          ConcatCancelLeft(c.id, ToStr(c.sessionId), "null");
        }
      }
    } else {
      assert !InSessionMode(written);
      var before := ToStr(OfNullable(Get(items, EmailKey)));
      assert Get(written, ConversationIdEmailKey) == Some(c.id + before);
      assert Plus(Str(c.id), OfNullable(Get(written, EmailKey))) == Some(c.id + stored);
      if EmailLinked(written) {
        ConcatCancelLeft(c.id, before, stored);
      }
    }
  }

  /** A conversation started by `handleRefresh` in e-mail mode does not
      survive the next page load, even for the same e-mail: the refresh keeps
      the old `conversationIdEmail`, which no longer matches the new id, so
      the load purges the new conversation and the mode flag. */
  lemma {:induction false} RefreshedEmailConversationLostOnLoad(
    items: map<string, string>, c: NewConversation, query: Option<string>)
    requires !InSessionMode(items) && EmailLinked(items)
    requires Get(items, ConversationIdKey).Some? && Get(items, ConversationIdKey).value != c.id
    requires ToStr(OfNullable(query)) == ToStr(OfNullable(Get(items, EmailKey)))
    ensures var loaded := AfterLoad(AfterRefresh(items, c), query);
      ConversationIdKey !in loaded && IsEmailConversationKey !in loaded
  {
    var oldId := Get(items, ConversationIdKey).value;
    var e := ToStr(OfNullable(query));
    var written := ApplyQueryEmail(AfterRefresh(items, c), query);
    assert !InSessionMode(written);
    assert Get(written, ConversationIdEmailKey) == Some(oldId + e);
    assert Plus(OfNullable(Get(written, ConversationIdKey)), OfNullable(Get(written, EmailKey))) == Some(c.id + e);
    if EmailLinked(written) {
      ConcatCancelRight(oldId, c.id, e);
    }
  }

  /** The state the home page keeps in React (`isOpen`, `showChatBox`,
      `isLoading`, `isRefreshLoading`, `error`) and the store it shares. */
  class HomePage {
    const storage: LocalStorage
    var isOpen: bool
    var showChatBox: bool
    var isLoading: bool
    var isRefreshLoading: bool
    var error: Option<string>

    constructor (storage: LocalStorage)
      ensures this.storage == storage
      ensures !isOpen && !showChatBox && !isLoading && !isRefreshLoading && error == None
    {
      this.storage := storage;
      isOpen, showChatBox, isLoading, isRefreshLoading := false, false, false, false;
      error := None;
    }

    /** The load effect: write the query e-mail, drop the session for a
        non-empty one, then recompute the linkage key and purge on mismatch. */
    method LoadEffect(query: Option<string>)
      modifies storage
      ensures storage.items == AfterLoad(old(storage.items), query)
    {
      WriteQueryEmail(query);
      CheckLinkage();
    }

    /** The first half of the load effect (lines 21-27). */
    method WriteQueryEmail(query: Option<string>)
      modifies storage
      ensures storage.items == ApplyQueryEmail(old(storage.items), query)
    {
      storage.SetItem(EmailKey, OfNullable(query));
      if Truthy(OfNullable(query)) {
        storage.RemoveItem(SessionIdKey);
      }
    }

    /** The second half of the load effect (lines 29-57): read the stored
        items, recompute both linkage keys and purge the current mode's keys
        on a mismatch. */
    method CheckLinkage()
      modifies storage
      ensures storage.items == Validate(old(storage.items))
    {
      var conversationId := storage.GetItem(ConversationIdKey);
      var isEmailConversation := storage.GetItem(IsEmailConversationKey);
      var email := storage.GetItem(EmailKey);
      var sessionId := storage.GetItem(SessionIdKey);
      var conversationIdSessionId := storage.GetItem(ConversationIdSessionIdKey);
      var conversationIdEmail := storage.GetItem(ConversationIdEmailKey);

      var checkSessionId := Plus(OfNullable(conversationId), OfNullable(sessionId));
      var checkEmail := Plus(OfNullable(conversationId), OfNullable(email));

      if isEmailConversation == Some("false") {
        if !StrictEquals(conversationIdSessionId, checkSessionId) {
          storage.RemoveItem(ConversationIdKey);
          storage.RemoveItem(SessionIdKey);
          storage.RemoveItem(ConversationIdSessionIdKey);
          assert storage.items == old(storage.items) - SessionPurge;
        }
      } else {
        if !StrictEquals(conversationIdEmail, checkEmail) {
          storage.RemoveItem(IsEmailConversationKey);
          storage.RemoveItem(ConversationIdKey);
          storage.RemoveItem(SessionIdKey);
          storage.RemoveItem(ConversationIdSessionIdKey);
          assert storage.items == old(storage.items) - EmailPurge;
        }
      }
    }

    method HandleBotClick()
      modifies this
      ensures isOpen && !showChatBox
      ensures isLoading == old(isLoading) && isRefreshLoading == old(isRefreshLoading) && error == old(error)
    {
      isOpen := true;
      showChatBox := false;
    }

    method HandleClose()
      modifies this
      ensures !isOpen && !showChatBox
      ensures isLoading == old(isLoading) && isRefreshLoading == old(isRefreshLoading) && error == old(error)
    {
      isOpen := false;
      showChatBox := false;
    }

    /** Opening the chat, up to the `await` of `POST /conversations/`: with a
        stored conversation id the chat is shown at once and nothing is
        posted (`posted` is false); otherwise loading goes on and the request
        is issued, to be finished by CompleteOpenChat. */
    method HandleOpenChat() returns (posted: bool)
      modifies this
      ensures posted <==> !Truthy(OfNullable(Get(storage.items, ConversationIdKey)))
      ensures !posted ==> showChatBox && !isLoading
      ensures posted ==> isLoading && showChatBox == old(showChatBox)
      ensures isOpen == old(isOpen) && isRefreshLoading == old(isRefreshLoading) && error == old(error)
    {
      isLoading := true;

      var conversationId := storage.GetItem(ConversationIdKey);
      if Truthy(OfNullable(conversationId)) {
        showChatBox := true;
        isLoading := false;
        posted := false;
        return;
      }
      posted := true;
    }

    /** The rest of `handleOpenChat`, once the post has settled. A 201 writes
        the keys of AfterCreate (reading the e-mail stored at that moment)
        and shows the chat, whatever happened to the widget meanwhile; any
        other 2xx status changes nothing; a thrown error sets the error
        banner. Loading is off afterwards in every case. */
    method CompleteOpenChat(outcome: CreateOutcome)
      requires outcome.Response? ==> 200 <= outcome.status < 300
      modifies this, storage
      ensures storage.items ==
        if outcome.Response? && outcome.status == 201
        then AfterCreate(old(storage.items), outcome.data) else old(storage.items)
      ensures showChatBox == ((outcome.Response? && outcome.status == 201) || old(showChatBox))
      ensures error == if outcome.Thrown? then Some(ErrorMessage) else old(error)
      ensures !isLoading
      ensures isOpen == old(isOpen) && isRefreshLoading == old(isRefreshLoading)
    {
      match outcome {
        case Thrown =>
          error := Some(ErrorMessage);
        case Response(status, data) =>
          if status == 201 {
            var email := storage.GetItem(EmailKey);
            if Truthy(data.sessionId) {
              storage.SetItem(SessionIdKey, data.sessionId);
              storage.SetItem(ConversationIdSessionIdKey, Str(Plus(Str(data.id), data.sessionId).value));
            } else {
              storage.SetItem(ConversationIdEmailKey, Str(Plus(Str(data.id), OfNullable(email)).value));
            }
            storage.SetItem(GreetingMessageKey, data.greetingMessage);
            storage.SetItem(ConversationIdKey, Str(data.id));
            storage.SetItem(IsEmailConversationKey, Bool(!Truthy(data.sessionId)));
            showChatBox := true;
          }
      }
      isLoading := false;
    }

    /** Refreshing, up to the `await` of `POST /conversations/`: the refresh
        indicator goes on and the request is issued unconditionally, to be
        finished by CompleteRefresh. */
    method HandleRefresh()
      modifies this
      ensures isRefreshLoading
      ensures isOpen == old(isOpen) && showChatBox == old(showChatBox)
      ensures isLoading == old(isLoading) && error == old(error)
    {
      isRefreshLoading := true;
    }

    /** The rest of `handleRefresh`, once the post has settled. A 201 writes
        the keys of AfterRefresh and shows the chat; any other 2xx status
        changes nothing; a thrown error sets the error banner. The refresh
        indicator is off afterwards, even if another refresh is still in
        flight. */
    method CompleteRefresh(outcome: CreateOutcome)
      requires outcome.Response? ==> 200 <= outcome.status < 300
      modifies this, storage
      ensures storage.items ==
        if outcome.Response? && outcome.status == 201
        then AfterRefresh(old(storage.items), outcome.data) else old(storage.items)
      ensures showChatBox == ((outcome.Response? && outcome.status == 201) || old(showChatBox))
      ensures error == if outcome.Thrown? then Some(ErrorMessage) else old(error)
      ensures !isRefreshLoading
      ensures isOpen == old(isOpen) && isLoading == old(isLoading)
    {
      match outcome {
        case Thrown =>
          error := Some(ErrorMessage);
        case Response(status, data) =>
          if status == 201 {
            storage.SetItem(GreetingMessageKey, data.greetingMessage);
            storage.SetItem(ConversationIdKey, Str(data.id));
            storage.SetItem(SessionIdKey, data.sessionId);
            showChatBox := true;
          }
      }
      isRefreshLoading := false;
    }
  }

  /** Closing the widget while a conversation is being created does not
      stop the creation: when the 201 arrives, the chat box is shown again
      although the widget is closed. */
  method CloseDuringCreateShowsChatBox(c: NewConversation) returns (open: bool, shown: bool)
    ensures !open && shown
  {
    var storage := new LocalStorage(map[]);
    var page := new HomePage(storage);
    page.HandleBotClick();
    var posted := page.HandleOpenChat();
    page.HandleClose();
    page.CompleteOpenChat(Response(201, c));
    open := page.isOpen;
    shown := page.showChatBox;
  }

  /** Two refreshes in flight: the first to settle turns the refresh
      indicator off while the second is still pending. */
  method OverlappingRefreshesClearIndicatorEarly(first: CreateOutcome) returns (loading: bool)
    requires first.Response? ==> 200 <= first.status < 300
    ensures !loading
  {
    var storage := new LocalStorage(map[]);
    var page := new HomePage(storage);
    page.HandleRefresh();
    page.HandleRefresh();
    page.CompleteRefresh(first);
    loading := page.isRefreshLoading;
  }
}
