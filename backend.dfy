/** The engine's state record (src/tg/mod.rs): the `Backend` object with its
    login fields, its two caches, its host callback slots, the run-loop
    handle slot and the set of chats whose profile photo is being fetched.

    The messaging client inside `Backend` is not a field here: every answer
    it gives is a parameter of the operation that asks for it. What the
    engine does outside its own fields (detached tasks it spawns, host
    callbacks it invokes, client requests it issues, session-file writes) is
    appended to the field `log`. */
module Tg {
  import opened Types

  /** A host callback (a thread-safe JavaScript function), by identity. */
  datatype Callback = Callback(id: nat)

  /** A spawned task's join handle, by identity. */
  datatype TaskHandle = TaskHandle(id: nat)

  datatype LoginToken = LoginToken(id: nat)
  datatype PasswordToken = PasswordToken(id: nat)

  /** Requests sent to the messaging client that the model keeps track of. */
  datatype Call =
    | RequestLoginCode(phone: string)
    | SignIn(token: LoginToken, code: string)
    | CheckPassword(passwordToken: PasswordToken, password: string)
    | IterMessages(chatId: int)
    | DownloadMedia(target: Downloadable, path: string)
    | UnpackChat(handle: PackedChat)

  datatype Event =
    /** `save_session` ran to completion; `written` says whether the file
        write succeeded (a failure is only logged). */
    | SessionSaved(written: bool)
    /** A detached `save_session` task was spawned. */
    | SessionSaveSpawned
    | ClientCalled(call: Call)
    | CacheSeenChatCalled(callback: Callback, seen: NativeSeenChat)
    | UpdateChatCalled(callback: Callback, seen: NativeSeenChat, chat: NativeChat, messages: seq<NativeMessage>)
    /** A detached `download_sender_chat_photo` task was spawned. */
    | SenderPhotoDownloadSpawned(sender: Option<RawChat>)
    | RunLoopSpawned(handle: TaskHandle)
    | RunLoopAborted(handle: TaskHandle)

  /** The login-related fields, as one value. */
  datatype Auth = Auth(
    user: Option<UserInfo>,
    loginToken: Option<LoginToken>,
    loginState: Option<LoginState>,
    passwordToken: Option<PasswordToken>)

  /** The token each waiting state needs is present: a code can be checked
      while a code is awaited, and a password while a password is awaited. */
  predicate AuthConsistent(a: Auth) {
    && (a.loginState == Some(CodeRequired) || a.loginState == Some(WrongCode) ==> a.loginToken.Some?)
    && (a.loginState == Some(PasswordRequired) ==> a.passwordToken.Some?)
  }

  /** Every summary is stored under its own chat id. */
  predicate ChatsKeyed(chats: map<int, NativeChat>) {
    forall id :: id in chats ==> chats[id].chat_id == id
  }

  /** Every handle is stored under its own id. */
  predicate HandlesKeyed(handles: map<int, PackedChat>) {
    forall id :: id in handles ==> handles[id].id == id
  }

  class Backend {
    var user: Option<UserInfo>
    var loginToken: Option<LoginToken>
    var loginState: Option<LoginState>
    var passwordToken: Option<PasswordToken>
    var seenPackedChats: map<int, PackedChat>
    var chats: map<int, NativeChat>
    var cacheSeenChatCallback: Option<Callback>
    var loadChatsCallback: Option<Callback>
    var updateChatCallback: Option<Callback>
    var incomingMessageCallback: Option<Callback>
    var runHandler: Option<TaskHandle>
    var profilePhotoDownloading: set<int>
    var log: seq<Event>

    function AuthOf(): Auth
      reads this`user, this`loginToken, this`loginState, this`passwordToken
    {
      Auth(user, loginToken, loginState, passwordToken)
    }

    /** The backend's invariant: the login tokens the current state needs
        are present, and every summary is stored under its own chat id. */
    ghost predicate Valid()
      reads this`user, this`loginToken, this`loginState, this`passwordToken, this`chats
    {
      AuthConsistent(AuthOf()) && ChatsKeyed(chats)
    }

    /** `Backend::new`, once the client is connected: empty caches, no login
        state, tokens, user, callbacks or run handle. */
    constructor ()
      ensures Valid()
      ensures chats == map[] && seenPackedChats == map[] && profilePhotoDownloading == {}
      ensures AuthOf() == Auth(None, None, None, None)
      ensures cacheSeenChatCallback.None? && loadChatsCallback.None?
      ensures updateChatCallback.None? && incomingMessageCallback.None?
      ensures runHandler.None? && log == []
    {
      user, loginToken, loginState, passwordToken := None, None, None, None;
      seenPackedChats, chats := map[], map[];
      cacheSeenChatCallback, loadChatsCallback := None, None;
      updateChatCallback, incomingMessageCallback := None, None;
      runHandler := None;
      profilePhotoDownloading := {};
      log := [];
    }

    /** `save_session`: never fails; the outcome of the file write is only
        logged, and no cache or login field changes. */
    method SaveSession(written: bool)
      modifies this`log
      ensures log == old(log) + [SessionSaved(written)]
    {
      log := log + [SessionSaved(written)];
    }

    method RegisterLoadChatsCallback(cb: Callback)
      modifies this`loadChatsCallback
      ensures loadChatsCallback == Some(cb)
    {
      loadChatsCallback := Some(cb);
    }

    method RegisterCacheSeenChatCallback(cb: Callback)
      modifies this`cacheSeenChatCallback
      ensures cacheSeenChatCallback == Some(cb)
    {
      cacheSeenChatCallback := Some(cb);
    }

    method RegisterUpdateChatCallback(cb: Callback)
      modifies this`updateChatCallback
      ensures updateChatCallback == Some(cb)
    {
      updateChatCallback := Some(cb);
    }

    method RegisterIncomingMessageCallback(cb: Callback)
      modifies this`incomingMessageCallback
      ensures incomingMessageCallback == Some(cb)
    {
      incomingMessageCallback := Some(cb);
    }

    /** `insert_chat_to`: stores the summary under its own chat id. */
    method InsertChatTo(chat: NativeChat)
      modifies this`chats
      ensures chats == old(chats)[chat.chat_id := chat]
      ensures ChatsKeyed(old(chats)) ==> ChatsKeyed(chats)
      ensures old(Valid()) ==> Valid()
    {
      chats := chats[chat.chat_id := chat];
    }

    /** `insert_seen_packed_chat`: stores the handle under its own id. */
    method InsertSeenPackedChat(handle: PackedChat)
      modifies this`seenPackedChats
      ensures seenPackedChats == old(seenPackedChats)[handle.id := handle]
      ensures HandlesKeyed(old(seenPackedChats)) ==> HandlesKeyed(seenPackedChats)
    {
      seenPackedChats := seenPackedChats[handle.id := handle];
    }
  }

  /** `is_logged_in`: the client's answer, unwrapped (an error panics). */
  function IsLoggedIn(answer: Result<bool>): (r: Result<bool>)
    ensures answer.Ok? ==> r == answer
    ensures answer.Err? ==> r.Err? && r.error.Panicked?
  {
    match answer
    case Ok(b) => Ok(b)
    case Err(_) => Err(Panicked("is_authorized failed"))
  }

  /** `sign_out`: true exactly when the client's sign-out succeeded. */
  function SignOut(answer: Result<()>): (signedOut: bool)
    ensures signedOut <==> answer.Ok?
  {
    answer.Ok?
  }

  /** `register_device`: a failed request is reported as `Ok(false)`, never as
      an error. */
  function RegisterDevice(response: Result<()>): (r: Result<bool>)
    ensures r.Ok?
    ensures r.value <==> response.Ok?
  {
    if response.Ok? then Ok(true) else Ok(false)
  }

  /** A snapshot of the caches and the log: the part of the state that the
      chat scan, the live-update handler and the bootstrap change. */
  datatype CacheState = CacheState(chats: map<int, NativeChat>, seen: map<int, PackedChat>, log: seq<Event>)

  function CachesOf(b: Backend): CacheState
    reads b`chats, b`seenPackedChats, b`log
  {
    CacheState(b.chats, b.seenPackedChats, b.log)
  }
}
