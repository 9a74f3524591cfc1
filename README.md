# Chat client core, modelled in Dafny

This project models the state logic of a single-page chat client. React renders it and REST calls feed it, but its core is a few pieces of logic that stand on their own:

- **Chat store** (`src/context/ChatContext.tsx`). `chatReducer` works on `ChatState`: the chat list, the current chat, a per-chat message cache, a loading flag and an error. It has nine actions. The `ChatProvider` operations dispatch fixed sequences of those actions against the held state.
- **Session store** (`src/context/AuthContext.tsx`). `authReducer` works on `AuthState` and keeps the invariant that the session is authenticated exactly when a user is held. `login`, `register` and `logout` are the provider's dispatch sequences.
- **Validators** (`src/utils/validators.ts`). These are length checks, a whitespace `trim`, and the anchored email pattern `^[^\s@]+@[^\s@]+\.[^\s@]+$`.
- **Form rules**. These are the `validateForm` closures of the registration and login forms. Each gives at most one message per field, trying that field's checks in a fixed order.
- **Configuration updater** (`src/pages/ConfigPage.tsx`). This is the nested map-by-id that `handleSettingChange` applies to sections and settings.
- **Socket service** (`src/services/socketService.ts`). This is an event-listener registry that is updated in place. Its socket is never connected.

Layout: one module per source file, plus `Wrappers` (an `Option` type) and `Types` (the entities of `src/types/index.ts`, with `Chat` as a tagged union of `Private` and `Group`).

Modelling form:

- The reducers are pure functions, with one transition function per action. Each promises its "nothing else changes" facts.
- The providers are classes with a `state` field. Their methods are proved against the reducer.
- The socket registry is a class with `socket` and `listeners` fields. Its methods are specified by the pure registry functions `WithListener` and `WithoutListener`.
- The form rules are functions that return a record of optional messages. Each key the source could assign is an `Option`, so "at most one message per field", and "only these keys", hold by construction.

Some members are plain definitions that other contracts use, with no row of their own: `ChatContext.MessagesOf` (the `messages.get(id) || []` lookup), `ChatContext.OutgoingMessage` (the message `sendMessage` builds), `ConfigPage.Not` (the `!value` a toggle stores), `SocketService.ListenersOf` (an event's listener set, empty when there is no entry), and predicates such as `Validators.NoSpace` and `ConfigPage.UniqueIds`.

Inputs the source takes from the environment are method parameters:

- the id and the timestamp `sendMessage` builds from `Date.now()` and `new Date()`;
- every config value a setting input produces.

## Model

| member | source | states |
|---|---|---|
| ChatContext.InitialState | src/context/ChatContext.tsx:26-32 | The store starts with no chats, no selection, no cached messages for any chat, not loading and no error. |
| ChatContext.WithoutId | src/context/ChatContext.tsx:82 | The filter keeps a chat iff its id differs from the deleted id, and never lengthens the list. |
| ChatContext.WithoutIdConcat | src/context/ChatContext.tsx:82 | The filter distributes over concatenation, so the kept chats stay in their original relative order. |
| ChatContext.WithoutIdAbsent | src/context/ChatContext.tsx:82 | When no chat has the id, the filter returns the list unchanged. |
| ChatContext.ReplaceById | src/context/ChatContext.tsx:88 | Same length; entry i becomes the payload iff its id matches, and stays as it was otherwise. |
| ChatContext.LoadChatsStarted | src/context/ChatContext.tsx:36-41 | LOAD_CHATS_START sets loading, clears the error, and leaves chats, selection and cache unchanged. |
| ChatContext.ChatsLoaded | src/context/ChatContext.tsx:42-47 | LOAD_CHATS_SUCCESS replaces the list wholesale (no merging) and ends loading; the error is left as it was. |
| ChatContext.ChatsLoadFailed | src/context/ChatContext.tsx:48-53 | LOAD_CHATS_ERROR ends loading, records the reason, and keeps the previous list. |
| ChatContext.ChatSelected | src/context/ChatContext.tsx:54-58 | SELECT_CHAT changes only the selection. |
| ChatContext.MessageAdded | src/context/ChatContext.tsx:59-68 | ADD_MESSAGE: no current chat means the state is unchanged. Otherwise the message is appended to the current chat's list (keyed by the current chat, not by the message's chatId), and every other key and field stays the same. |
| ChatContext.MessagesLoaded | src/context/ChatContext.tsx:69-73 | LOAD_MESSAGES_SUCCESS binds that chat id to exactly the loaded list; every other key and field stays the same. |
| ChatContext.ChatCreated | src/context/ChatContext.tsx:74-78 | CREATE_CHAT_SUCCESS appends the chat as the last element; the earlier list is a prefix of the new one. |
| ChatContext.ChatDeleted | src/context/ChatContext.tsx:79-84 | DELETE_CHAT removes every chat with the id and keeps the rest in order. The selection is cleared iff it has that id. The cache is untouched. |
| ChatContext.ChatUpdated | src/context/ChatContext.tsx:85-89 | UPDATE_CHAT keeps the list's length and order and replaces only matching entries. The selection is not refreshed. |
| ChatContext.Reduce | src/context/ChatContext.tsx:34-93 | Over the whole switch: loading is on afterwards iff the action is LOAD_CHATS_START, or it was on and the action is neither LOAD_CHATS_SUCCESS nor LOAD_CHATS_ERROR. START clears the error and ERROR records its reason. Only LOAD_CHATS_SUCCESS can grow the list by more than one chat. Only SELECT_CHAT can make a selection where there was none. |
| ChatContext.ReduceAll | src/context/ChatContext.tsx:109 | Successive dispatches: for a non-empty run, the last action acts on the state that the earlier actions reached. |
| ChatContext.ReduceFrame | src/context/ChatContext.tsx:34-93 | For every action: only the two message actions change the cache; no action drops a cache key; only LOAD_MESSAGES_SUCCESS can shorten a cached list; the selection changes only on SELECT/DELETE; the flags change only on the three load actions. |
| ChatContext.ReduceAllKeepsMessages | src/context/ChatContext.tsx:34-93 | Over any run of actions, none of them a message action, the cache is unchanged. |
| ChatContext.ConversationScenario | src/context/ChatContext.tsx:42-73 | From the initial state: load [A, B], select A, load [m1] for A, add m2. Then A's messages are [m1, m2] and B has no cache entry. |
| ChatContext.ChatProvider.constructor | src/context/ChatContext.tsx:26-32 | The store starts in the initial state. |
| ChatContext.ChatProvider.Dispatch | src/context/ChatContext.tsx:109 | A dispatch replaces the held state with the reducer's result. |
| ChatContext.ChatProvider.SelectChat | src/context/ChatContext.tsx:111-113 | Dispatches SELECT_CHAT. |
| ChatContext.ChatProvider.SendMessage | src/context/ChatContext.tsx:115-132 | Without a current chat, nothing happens. Otherwise the built message is appended to the current chat's list and nothing else changes. |
| ChatContext.ChatProvider.LoadChats | src/context/ChatContext.tsx:134-143 | Dispatches START then SUCCESS with []. From any state it ends with no chats, not loading and no error, with the selection and cache unchanged. |
| ChatContext.ChatProvider.LoadMessages | src/context/ChatContext.tsx:145-156 | Dispatches LOAD_MESSAGES_SUCCESS with []. The chat's cached list becomes empty and other keys are unchanged. |
| ChatContext.ChatProvider.CreatePrivateChat | src/context/ChatContext.tsx:158-166 | The stub changes nothing. |
| ChatContext.ChatProvider.CreateGroupChat | src/context/ChatContext.tsx:168-176 | The stub changes nothing. |
| ChatContext.ChatProvider.DeleteChat | src/context/ChatContext.tsx:178-181 | Dispatches DELETE_CHAT. |
| AuthContext.InitialState | src/context/AuthContext.tsx:9-14 | No user, not authenticated, not loading, no error; satisfies the session invariant. |
| AuthContext.SessionInvariant | src/context/AuthContext.tsx:16-46 | The session's consistency condition, "authenticated exactly when a user is held". The reducer lemmas below state that it holds. |
| AuthContext.WellFormedAction | src/context/AuthContext.tsx:25-33 | The precondition of those lemmas: a SUCCESS action carries a user. |
| AuthContext.Started | src/context/AuthContext.tsx:18-24 | LOGIN_START and REGISTER_START set loading and clear the error, leaving user and authentication unchanged. |
| AuthContext.Succeeded | src/context/AuthContext.tsx:25-33 | SUCCESS stores the payload as the user, authenticated, not loading, with no error. The invariant then holds iff the payload is non-null. |
| AuthContext.Failed | src/context/AuthContext.tsx:34-40 | ERROR ends loading and records the reason, leaving user and authentication unchanged. |
| AuthContext.Reduce | src/context/AuthContext.tsx:41-42 | LOGOUT yields exactly the initial state, from any state. |
| AuthContext.ReduceAll | src/context/AuthContext.tsx:58 | Successive dispatches: for a non-empty run, the last action acts on the session that the earlier actions reached. |
| AuthContext.LoginAndRegisterAgree | src/context/AuthContext.tsx:18-40 | The LOGIN_ and REGISTER_ variants of START, SUCCESS and ERROR are the same transition. |
| AuthContext.ReducePreservesInvariant | src/context/AuthContext.tsx:16-46 | Every action keeps "authenticated iff user present", provided a SUCCESS payload is non-null. |
| AuthContext.NullSuccessBreaksInvariant | src/context/AuthContext.tsx:25-33 | A SUCCESS with a null payload breaks the invariant, so the proviso above is needed. |
| AuthContext.ReduceAllPreservesInvariant | src/context/AuthContext.tsx:16-46 | Every state reached by a run of such actions keeps the invariant. |
| AuthContext.EndingWithLogoutResets | src/context/AuthContext.tsx:41-42 | Any run whose last action is LOGOUT ends in the initial state. |
| AuthContext.LoginThenLogout | src/context/AuthContext.tsx:18-42 | START, SUCCESS, then LOGOUT yields the initial state, for both login and registration. |
| AuthContext.AuthProvider.constructor | src/context/AuthContext.tsx:58 | The session starts in the initial state, satisfying the invariant. |
| AuthContext.AuthProvider.Dispatch | src/context/AuthContext.tsx:58 | A dispatch replaces the held session with the reducer's result. |
| AuthContext.AuthProvider.Login | src/context/AuthContext.tsx:60-70 | Dispatches only LOGIN_START: afterwards loading is set, there is no error, the user is unchanged and the invariant is kept. |
| AuthContext.AuthProvider.Register | src/context/AuthContext.tsx:72-82 | Dispatches only REGISTER_START, with the same outcome as Login. |
| AuthContext.AuthProvider.Logout | src/context/AuthContext.tsx:84-87 | Resets the session to the initial state. |
| Validators.IsSpace | src/utils/validators.ts:3 | The whitespace set of `\s` and `trim()`: the WhiteSpace and LineTerminator code points of the ECMAScript standard. |
| Validators.TrimStart | src/utils/validators.ts:19 | The result is the suffix that starts at the first non-space character; every dropped character is whitespace. |
| Validators.TrimEnd | src/utils/validators.ts:19 | The result is the prefix that ends at the last non-space character; every dropped character is whitespace. |
| Validators.Trim | src/utils/validators.ts:19 | The result is a slice of the string that has only whitespace before and after it. When it is non-empty, it neither starts nor ends with whitespace. |
| Validators.TrimNonEmptyIff | src/utils/validators.ts:19 | The trimmed string is non-empty iff the string holds a non-whitespace character. |
| Validators.IsValidPassword | src/utils/validators.ts:8-10 | A definition: at least 6 characters. Both forms' password rules agree with it (see the form rows). |
| Validators.IsValidUsername | src/utils/validators.ts:13-15 | A definition: 3 to 20 characters. The registration form is laxer than it (`RegisterForm.UsernameRuleIsLaxer`). |
| Validators.IsValidChatName | src/utils/validators.ts:18-20 | A definition: non-empty after trimming and at most 100 characters. Characterised by `ChatNameValidIff`. |
| Validators.IsValidMessage | src/utils/validators.ts:23-25 | A definition: non-empty after trimming and at most 5000 characters. Characterised by `MessageValidIff`. |
| Validators.ChatNameValidIff | src/utils/validators.ts:18-20 | A chat name is valid iff it holds a non-whitespace character and its untrimmed length is at most 100. A blank name is invalid. |
| Validators.MessageValidIff | src/utils/validators.ts:23-25 | A message is valid iff it holds a non-whitespace character and its untrimmed length is at most 5000. |
| Validators.ChatNameIsMessage | src/utils/validators.ts:18-25 | Every valid chat name is a valid message. |
| Validators.IsValidEmail | src/utils/validators.ts:2-5 | The anchored pattern matches the whole string, so the string has at least 5 characters. Characterised by `EmailValidIff`. |
| Validators.OccursNoneIff | src/utils/validators.ts:3 | A character does not occur iff no position holds it. |
| Validators.OnlyAtOccursOnce | src/utils/validators.ts:3 | A character held at exactly one position occurs once. |
| Validators.OccursOnceOnlyAt | src/utils/validators.ts:3 | A character that occurs once is held at exactly one position. |
| Validators.OccursOnceIff | src/utils/validators.ts:3 | "Occurs exactly once" is equivalent to "exactly one position holds it". |
| Validators.EmailMatchHasShape | src/utils/validators.ts:2-5 | A match of the anchored pattern has no whitespace, exactly one @, a non-empty local part, and an inner dot after the @. |
| Validators.ShapeHasEmailMatch | src/utils/validators.ts:2-5 | Every string of that shape matches the anchored pattern. |
| Validators.EmailValidIff | src/utils/validators.ts:2-5 | isValidEmail holds iff: no whitespace, exactly one @, something before it, and a dot after it that is neither first nor last. |
| RegisterForm.ContainsLooseEmail | src/components/auth/RegisterForm.tsx:32 | A definition of the unanchored `\S+@\S+\.\S+` test: some substring has two runs of non-space characters around an @, then a dot, then another run. It is compared with `isValidEmail` below. |
| RegisterForm.ValidateForm | src/components/auth/RegisterForm.tsx:15-47 | Per field: empty gives "required", short gives the length message, and the field has no error iff it passes. The email has no error iff it is non-empty and contains `\S+@\S+\.\S+`. The password has no error iff isValidPassword. The confirmation has an error iff the passwords differ. No error at all iff all five checks pass. |
| RegisterForm.ValidEmailContainsLooseEmail | src/components/auth/RegisterForm.tsx:32 | A string the anchored pattern accepts contains the loose pattern. |
| RegisterForm.ValidEmailHasNoEmailError | src/components/auth/RegisterForm.tsx:30-34 | An email isValidEmail accepts gets no email error from the form. |
| RegisterForm.LooseEmailIsWeaker | src/components/auth/RegisterForm.tsx:32 | "x@@y.z" passes the form's loose check but not isValidEmail. |
| RegisterForm.UsernameRuleIsLaxer | src/components/auth/RegisterForm.tsx:24-28 | A username isValidUsername accepts gets no error. A 21-character username also gets no error, though isValidUsername rejects it: the form has no upper bound. |
| LoginForm.ValidateForm | src/components/auth/LoginForm.tsx:19-33 | An empty identifier is the only identifier error. The password is "required" when empty and "too short" below 6 characters, and has no error iff isValidPassword. There are no errors iff the identifier is non-empty and the password has at least 6 characters. |
| LoginForm.PasswordRuleMatchesRegister | src/components/auth/LoginForm.tsx:26-30 | For every password, the login rule gives the same message as the registration rule. |
| ConfigPage.Truthy | src/pages/ConfigPage.tsx:80 | A definition of JavaScript truthiness for the values a setting can hold. `ToggleClick` uses it. |
| ConfigPage.InitialConfigs | src/pages/ConfigPage.tsx:24-53 | Two sections. No two sections share an id, and no two settings of a section share one. Every setting is numeric and holds a number. |
| ConfigPage.SetValueIn | src/pages/ConfigPage.tsx:61-63 | Settings keep their number and order. A setting with the id gets the new value and nothing else of it changes; the other settings are unchanged. |
| ConfigPage.UpdateSetting | src/pages/ConfigPage.tsx:55-68 | Sections keep their number and order. A section with the id has its settings updated; the other sections are returned unchanged. |
| ConfigPage.UpdateTouchesOnlyValues | src/pages/ConfigPage.tsx:56-66 | For each section and setting: the ids, titles, labels, descriptions, kinds and options are untouched, and the value changes to v exactly at addressed settings. |
| ConfigPage.UpdateAlreadyHeld | src/pages/ConfigPage.tsx:55-68 | If every addressed setting already holds v, the update returns its input. |
| ConfigPage.UpdateWithoutMatch | src/pages/ConfigPage.tsx:57-66 | If no section/setting pair matches, the result equals the input. |
| ConfigPage.UpdateLastWins | src/pages/ConfigPage.tsx:55-68 | Of two updates of the same setting, the second wins. |
| ConfigPage.UpdateIdempotent | src/pages/ConfigPage.tsx:55-68 | Applying the same update twice equals applying it once. |
| ConfigPage.ToggleClick | src/pages/ConfigPage.tsx:80 | Sections and settings keep their number, order and every field except values. Each addressed setting gets the boolean negation of the truthiness of the clicked setting's value. Every other setting is unchanged. |
| ConfigPage.ToggleTwiceRestoresSetting | src/pages/ConfigPage.tsx:80 | With no proviso: two clicks on a boolean toggle give the clicked setting back its value. |
| ConfigPage.ToggleTwiceRestores | src/pages/ConfigPage.tsx:80 | Two toggle clicks on a boolean setting restore the whole configuration, when every addressed setting holds the same boolean. |
| ConfigPage.UniqueIdsAddressOne | src/pages/ConfigPage.tsx:57-63 | With unique ids, the only setting an update addresses is the one at that section and setting id, so the proviso of `ToggleTwiceRestores` is met. |
| ConfigPage.ToggleTwiceRestoresUnique | src/pages/ConfigPage.tsx:80 | With unique ids (as in the initial configuration), two clicks on a boolean toggle restore the whole configuration. |
| ConfigPage.InitialWrongSectionUnchanged | src/pages/ConfigPage.tsx:24-53 | On the initial configuration, a setting id looked up under the wrong section changes nothing. |
| SocketService.WithListener | src/services/socketService.ts:36-40 | The event gets an entry if it had none, and its set gains the callback. Every other event's set is unchanged. |
| SocketService.WithoutListener | src/services/socketService.ts:48-52 | The callback is removed if the event has an entry. No entry is created or dropped, and other events are unchanged. |
| SocketService.OnIdempotent | src/services/socketService.ts:40 | Registering the same callback twice is the same as registering it once. |
| SocketService.OffUndoesOn | src/services/socketService.ts:36-52 | off undoes an on of a callback that was not yet registered under an existing entry. |
| SocketService.OffKeepsEmptyEntry | src/services/socketService.ts:48-52 | Removing the last callback leaves the event's entry in place, with an empty set. |
| SocketService.SendMessagePayload | src/services/socketService.ts:74 | The payload has the message's fields plus chatId. A chatId field of the message overrides the argument. |
| SocketService.SocketService.constructor | src/services/socketService.ts:13-14 | The service starts with no socket and an empty registry. |
| SocketService.SocketService.Connect | src/services/socketService.ts:16-34 | The stub assigns no socket and touches no listener. |
| SocketService.SocketService.On | src/services/socketService.ts:36-46 | The registry becomes WithListener of the old one and the socket is unchanged. |
| SocketService.SocketService.Off | src/services/socketService.ts:48-56 | The registry becomes WithoutListener of the old one and the socket is unchanged. |
| SocketService.SocketService.Emit | src/services/socketService.ts:58-62 | Changes nothing observable. |
| SocketService.SocketService.Disconnect | src/services/socketService.ts:64-70 | With no socket (the only reachable case), every listener survives. With a socket, the registry would be cleared. Either way there is no socket afterwards, so the service is in its reachable state. |
| SocketService.SocketService.SendMessage | src/services/socketService.ts:73-75 | Only emits, so the registry and the socket are unchanged. |
| SocketService.SocketService.JoinChat | src/services/socketService.ts:77-79 | Only emits, so the registry and the socket are unchanged. |
| SocketService.SocketService.LeaveChat | src/services/socketService.ts:81-83 | Only emits, so the registry and the socket are unchanged. |
| SocketService.SocketService.SetUserStatus | src/services/socketService.ts:85-87 | Only emits, so the registry and the socket are unchanged. |
| SocketService.ListenersSurvive | src/services/socketService.ts:36-70 | A client run of on(a), on(b), joinChat, off(a) and disconnect ends with exactly `message` mapped to {b}. |

## Left out

- The REST client (`src/services/apiService.ts`) and the image upload client (`src/services/cloudinaryService.ts`) are left out. They are network I/O with no state of their own.
- Clocks are left out. The id and the timestamp that `sendMessage` takes from `Date.now()` and `new Date()` are parameters of `ChatProvider.SendMessage`.
- React machinery is left out: `useReducer` scheduling, `useEffect` re-runs, the `useAuth`/`useChat` lookups that throw outside a provider, async interleaving, toasts and navigation. Dispatches are modelled as sequential method calls, so overlapping requests and their last-write-wins races are not modelled.
- `console.log` and `console.error` are output only. The `catch` branches of the providers cannot be reached, because nothing left in their `try` blocks can throw. They are not modelled.
- The reducers' `default: return state` branches are left out. The action types are closed datatypes here, so no other action type exists.
- Untyped payloads are left out. The source types every payload as `any`; the model gives each action the payload its provider passes. The exception is the session SUCCESS payload, which is an optional user so that a null payload can be stated.
- Transport calls are left out. The socket's own `on`, `off`, `emit` and `disconnect` calls go to a library that is not part of this model. With the socket never assigned, they are unreachable anyway.
- JavaScript strings are UTF-16, so `.length` counts code units. Here a string is a sequence of Unicode characters and its length counts characters. `IsSpace` is the whitespace set of the ECMAScript standard, which both `\s` and `trim()` use.
- `parseInt` in the number input is left out. Its result is modelled only as its possible values: an integer, `NaN`, or ±Infinity, which the model folds into large integers. A large integer is truthy, like an infinity.
- JSX rendering and every presentation component are left out. Only the chat-window lookup (`MessagesOf`) is kept, as a helper.
- The registration form's submit handler is not part of this model. That handler (`src/components/auth/RegisterForm.tsx:61`) passes four arguments to `register`, which takes three (`src/context/AuthContext.tsx:72`). So `username` receives the full name, `email` receives the username, and `password` receives the email. `AuthProvider.Register` is modelled with its declared parameters.
- The code has no startup current-user check, no profile update and no route guard, and `login` neither re-raises nor dispatches an error. None of these is modelled.
