# MyTeams in Dafny

A model of the MyTeams chat server and client, and proofs about it. MyTeams keeps users, teams,
channels, threads, replies and private messages in memory, serves them over a length-prefixed binary
protocol to clients handled by one poll loop, and saves them to seven text files when it stops.

The files, from the bytes up:

- `FixedFields`, `TimeCodec`, `LineCodec`, `Protocol`: fixed-size character fields, decimal
  timestamps, escaped lines, packets and their incremental framing.
- `Models`, `ModelObjects`: the stored objects, as values and as the mutable objects they are.
- `Save`, `Grouping`, `Load`, `Persistence`, `Exactness`: the seven tables, the loaders with their
  position maps against a plain grouping of rows, the round trip and exactly when it holds.
- `Commands`: what each of the thirteen commands and a disconnection do, as functions of the store,
  the sessions and the requester's context. `ServerState` adds the connections and their buffers.
- `StoreInvariant`, `SessionInvariant`, `CommandInvariant`: what every command keeps.
- `ReplyGrammar`, `Broadcast`: what the requester is answered and who else is told.
- `Effects`, `StoreEffects`, `Targets`, `CreateEffects`, `QueryEffects`: what each request does, from
  the bytes of its payload: the whole new store and sessions, the replies as the client reads them,
  who else is told, and every refusal. `TypedCommands` starts from what the user types.
- `Runs`, `Chunking`, `Traffic`, `Journal`, `History`, `DeliveryLoss`: whole runs, with connections,
  arbitrary chunks, partial flushes, departures and any number of restarts through the files; who is
  logged in, who subscribes and what was sent, told from the requests and their answers alone.
- `ClientManagement`, `ServerRoutines`, `ServerHandlers`, `PollLoop`: the server as it runs: classes
  whose fields change, loops over vectors and unordered maps, a descriptor list that grows and shrinks
  while it is walked. Each method is tied to the function above that says what it does.
- `ClientStream`, `Lockstep`, `ClientCommands`, `Payloads`, `Contexts`, `ClientSessions`: the client's
  reads and reply loops against what the server queues, both ends of every payload, the two views of
  a connection's context, and whole sessions of a client among others.

Facts of the code that the model keeps, and that one might not expect:

- A disconnection erases the whole by-uuid session entry, even when the user has other sessions
  (`server/commands/logout_command.cpp:83`). `Runs.ListedUnlessCutOff` says
  exactly which sessions are then missing from the map, `Broadcast.PrivateMessageFanOut` to whom
  private messages still go, and `DeliveryLoss.LostMessage` is a run in which one is lost.
- A logout leaves the connection's context on the server while the client forgets its own
  (`server/commands/logout_command.cpp:27-59`, `client/commands/logout_command.cpp:33-39`).
  `Contexts.TargetsAgree` says exactly when client and server agree on what `/create` creates, and
  `Contexts.StaleContext` is a session in which they do not.
- `load` empties users and teams but appends private messages (`server/database/load/load.cpp:382-419`).
- Headers are copied in host byte order, while `protocol_documentation.md` describes network order;
  any fixed two-byte bijection gives the same results, and the model uses little-endian.
- Looking up the receivers of a private message creates an empty by-uuid entry when there is none
  (`server/commands/send_command.cpp:12`).

Bytes are Dafny characters; a header byte is the character's code modulo 256.

## Model

| member | source | states |
|---|---|---|
| FixedFields.CopyPaddedString | server/commands/command_utils.hpp:30-38 | copying in place leaves the longest prefix that fits, a NUL and the old tail, and reads back as the stored form |
| FixedFields.ExtractFixedString | server/commands/command_utils.cpp:169-181 | accepts a field exactly when it holds a NUL, and yields what precedes the first one |
| FixedFields.ReadBack | server/models/team/team.hpp:117-132 | whatever a buffer held before, reading it after a copy gives the clipped source, nothing of the old contents |
| FixedFields.ExtractOfPadded | client/commands/packet_utils.hpp:36-44 | extracting a padded copy of any NUL-free string into any field of N bytes gives its first min(length, N-1) characters |
| FixedFields.WireFieldIsLossless | server/models/user/user.hpp:75-82 | a string accepted from an N-byte wire field is stored, compared and sent again unchanged through an N-byte model buffer |
| LineCodec.EscapeField | server/database/save/save.cpp:16-38 | the character loop computes the escape of the value |
| LineCodec.JoinEscapedFields | server/database/save/save.cpp:40-50 | the field loop computes the joined line |
| LineCodec.SplitEscapedLine | server/database/load/load.cpp:24-64 | the backslash state machine computes Split |
| LineCodec.SplitJoin | server/database/load/load.cpp:24-64 | split after join is the identity on every non-empty field list, for every delimiter but backslash, n and r |
| LineCodec.LosslessDelimiters | server/database/save/save.cpp:16-50 | split after join is the identity on all non-empty field lists exactly for the delimiters other than backslash, n and r |
| LineCodec.JoinInjective | server/database/save/save.cpp:40-50 | two non-empty field lists with the same line are equal, and split, join, split is split |
| LineCodec.JoinedHasNoNewline | server/database/save/save.cpp:27-34 | no joined line contains a raw newline |
| LineCodec.WriteLines | server/database/save/save.cpp:118-129 | the text written is every line followed by a newline |
| LineCodec.ReadTextLines | server/database/load/load.cpp:109-125 | repeated getline yields the lines of the text, a last unterminated one only when it is not empty |
| LineCodec.FileRoundTrip | server/database/load/load.cpp:121-124 | writing then reading lines is the identity exactly when no line holds a raw newline |
| TimeCodec.AccumulateDigits | server/database/load/load.cpp:66-79 | the accumulation never overflows 64 bits on digits that denote a 64-bit value, and refuses exactly the others |
| TimeCodec.ParseTimeValue | server/database/load/load.cpp:66-79 | accepts a field exactly when all of it is a decimal 64-bit number, and returns that number |
| TimeCodec.TimeRoundTrip | server/database/save/save.cpp:67 | every signed 64-bit time, negatives and the minimum included, survives printing and parsing |
| ModelObjects.UserObject.constructor | server/models/user/user.hpp:25-30 | a new user reads as its clipped uuid and name, its counter as the flag |
| ModelObjects.UserObject.AddLoggedIn | server/models/user/user.hpp:61-64 | the int32 counter goes up by one, wrapping at its end |
| ModelObjects.UserObject.RemoveLoggedIn | server/models/user/user.hpp:66-73 | the counter goes down by one, not below zero |
| ModelObjects.UserObject.ResetLoggedIn | server/models/user/user.hpp:57-59 | the counter is zero, the rest unchanged |
| ModelObjects.TeamObject.constructor | server/models/team/team.hpp:30-35 | a new team reads as its clipped fields, without subscribers or channels |
| ModelObjects.TeamObject.AddSubscribedUser | server/models/team/team.hpp:83-86 | the stored uuid is appended to the subscribers |
| ModelObjects.TeamObject.IsUserSubscribed | server/models/team/team.hpp:88-95 | the buffer search answers whether some subscriber reads as the uuid |
| ModelObjects.TeamObject.RemoveSubscribedUser | server/models/team/team.hpp:97-109 | every buffer that reads as the uuid goes, the others keep their order; the result says whether any went |
| ModelObjects.TeamObject.AddChannel | server/models/team/team.hpp:111-114 | the channel is appended |
| Save.SerializeData | server/database/save/save.cpp:52-116 | the nested loops produce the seven tables, each in the order of the tree |
| Load.ParseRecord | server/database/load/load.cpp:87-107 | accepts a line exactly when it has the field count and the required fields are not empty |
| Load.LoadUsers | server/database/load/load.cpp:140-152 | for all lines: the understood users in order |
| Load.LoadPrivateMessages | server/database/load/load.cpp:154-176 | for all lines: the understood messages, appended to the given ones |
| Load.LoadTeams | server/database/load/load.cpp:178-204 | for all lines: first occurrences of non-empty uuids, and a map whose entries are exactly their positions |
| Load.LoadTeamSubscriptions | server/database/load/load.cpp:206-234 | for all lines: each subscription of a known team lands in that team, in order; no lookup fails |
| Load.LoadChannels | server/database/load/load.cpp:236-268 | for all lines: grouping under teams as the reference does, and a map from each channel uuid to the object built from its row and back |
| Load.LoadThreads | server/database/load/load.cpp:270-314 | the same for threads under channels, across growing vectors |
| Load.PushReply | server/database/load/load.cpp:340-348 | three in-range lookups reach the thread and append the reply to it alone |
| Load.LoadMessages | server/database/load/load.cpp:316-350 | for all lines: every reply of a known thread lands in that thread, in order; no lookup fails |
| Load.MaterializeTeams | server/database/load/load.cpp:352-372 | the four nested loops rebuild the tree of the loaded records |
| Load.LoadTree | server/database/load/load.cpp:408-418 | the five loaders in a row compute the plain grouping of the accepted rows, for all, even malformed, tables |
| Load.LoadDatabase | server/database/load/load.cpp:379-426 | what load leaves in its three vectors, with and without saved data |
| Grouping.Regroup | server/database/load/load.cpp:236-350 | grouping a flattened table under distinct parents gives each parent its own rows back, in order |
| Grouping.AcceptAll | server/database/load/load.cpp:192-203 | nothing is rejected exactly when identifiers are distinct and parents known |
| Persistence.SaveDatabase | server/database/save/save.cpp:139-167 | the seven files hold the serialized tables |
| Persistence.FilesRoundTrip | server/database/save/save.cpp:118-129 | the files read back as exactly the tables written, whatever the store |
| Persistence.TablesRoundTrip | server/database/load/load.cpp:379-426 | loading the saved tables rebuilds the whole tree in the same order at every level |
| Persistence.DatabaseRoundTrip | server/database/save/save.cpp:52-116 | through the files: users (login as a flag), private messages and the whole tree come back |
| Exactness.TreeCameBack | server/database/load/load.cpp:178-350 | if the tree came back, identifiers were non-empty and distinct per level, subscriptions non-empty and replies without receiver |
| Exactness.DatabaseRoundTripExactly | server/database/load/load.cpp:379-426 | teams come back if and only if they are persistable, private messages if and only if their uuid and author are non-empty, users always |
| Protocol.ParseAppend | server/commands/command_dispatcher.cpp:71-98 | parsing a concatenation is parsing the first part, then its leftover with the second |
| Protocol.ChunkingIndependent | server/commands/command_dispatcher.cpp:60-99 | however a stream is cut, the packets and the leftover are those of the one-shot parse |
| Protocol.ParseEncoded | server/commands/command_utils.cpp:25-40 | re-framing encoded packets gives exactly the packets, nothing left over |
| ServerState.DeliverIsAppend | server/core/client_manager/client_manager.cpp:72-79 | queuing operations append to each connection exactly the encodings of its packets and touch nothing else |
| ServerState.HandleAllSetIncoming | server/commands/command_dispatcher.cpp:71-98 | no handler looks at or alters an incoming buffer, so removing the packet after its handler is removing it before |
| ServerState.ReceiveChunks | server/network/reciever/reciever.cpp:22-31 | receiving two chunks leaves the server as receiving them glued together |
| StoreInvariant.StoreOkPersists | server/commands/create_command.cpp:168-177 | every store the invariant allows meets the round-trip precondition |
| StoreInvariant.AddUserKeeps | server/commands/login_command.cpp:41-50 | a new user keeps the store invariant and becomes the one new known uuid |
| StoreInvariant.AddTeamKeeps | server/commands/create_command.cpp:168-177 | a team with an unused uuid and name keeps it |
| StoreInvariant.AddChannelKeeps | server/commands/create_command.cpp:244-251 | a channel with a globally unused uuid and a name new to its team keeps it |
| StoreInvariant.AddThreadKeeps | server/commands/create_command.cpp:289-297 | a thread with a globally unused uuid and a title new to its channel keeps it |
| StoreInvariant.AddReplyKeeps | server/commands/create_command.cpp:346-347 | a reply by a known user keeps it |
| SessionInvariant.LoginKeeps | server/commands/login_command.cpp:28-56 | a login, first or further, keeps store, counters and both indexes; the counter cannot overflow |
| SessionInvariant.LogoutKeeps | server/commands/logout_command.cpp:34-58 | a logout keeps store, counters and both indexes |
| SessionInvariant.DisconnectKeeps | server/commands/logout_command.cpp:61-91 | a disconnection keeps store, counters and the soundness of the by-uuid index |
| SessionInvariant.DisconnectExactness | server/commands/logout_command.cpp:73-83 | after a disconnection the two maps are still inverse if and only if the leaver had no other session |
| SessionInvariant.ReceiversAreSessions | server/commands/send_command.cpp:11-23 | the receivers of a private message are the user's sessions that are not unlisted, each once |
| CommandInvariant.ExecKeeps | server/commands/command_dispatcher.cpp:46-58 | any packet, of any code and with any payload, keeps store, counters and indexes and leaves only a valid context |
| ReplyGrammar.ListSpeaks | server/commands/list_command.cpp:95-158 | /list answers N entries of one kind and size, then RPL_OK, or one refusal |
| ReplyGrammar.SubscribedListSpeaks | server/commands/subscription_commands.cpp:132-158 | teams for an empty payload, users for a team filter, then RPL_OK, or one refusal |
| ReplyGrammar.MessagesSpeaks | server/commands/messages_command.cpp:28-73 | message entries, then RPL_OK, or one refusal |
| ReplyGrammar.SendSpeaks | server/commands/send_command.cpp:25-69 | one status to the sender, after the events |
| ReplyGrammar.CreateSpeaks | server/commands/create_command.cpp:372-411 | one reply to the creator, events for the others |
| ReplyGrammar.ExecSpeaks | server/commands/command_dispatcher.cpp:46-58 | whatever the request: the requester's replies follow its command's grammar, everybody else only gets events, and every packet fits a header |
| Broadcast.AnyOrder | server/commands/create_command.cpp:143-158 | walking the session map in any order queues the packet once per descriptor |
| Broadcast.LoginFanOut | server/commands/login_command.cpp:34-39 | an accepted login is announced once to every logged-in descriptor, a refused one to nobody |
| Broadcast.LogoutFanOut | server/commands/logout_command.cpp:45-58 | an accepted logout is announced once to the leaver and once to each remaining logged-in descriptor |
| Broadcast.DisconnectFanOut | server/commands/logout_command.cpp:84-90 | a disconnection is announced once to each remaining logged-in descriptor |
| Broadcast.TeamFanOut | server/commands/create_command.cpp:190-196 | a new team is announced once to every logged-in descriptor |
| Broadcast.ChannelFanOut | server/commands/create_command.cpp:264-271 | a new channel, as it is stored, is announced once to each descriptor whose user subscribes to the team and to no other; a refused creation to nobody |
| Broadcast.ThreadFanOut | server/commands/create_command.cpp:312-321 | the same for a new thread, as it is stored |
| Broadcast.ReplyFanOut | server/commands/create_command.cpp:361-369 | the same for a new reply, with its team, thread, author and body |
| Broadcast.PrivateMessageFanOut | server/commands/send_command.cpp:11-23 | in every run an accepted private message reaches exactly the receiver's sessions that no disconnection of another of their sessions has cut off since they logged in, once each, and nobody else |
| Runs.ContextIsLossless | server/core/client_manager/client.hpp:22-66 | a valid context goes through the raw buffers unchanged |
| Runs.RestartLosesNothing | server/core/server_manager/server_manager.cpp:266-282 | saving, loading and resetting any reachable store gives it back with every login counter at 0 |
| Runs.RunsStayGood | server/core/server_manager/server_manager.cpp:289-341 | every state of every run keeps store, counters, indexes, valid contexts, an incoming leftover that is a proper prefix of one packet, and logged-in descriptors among the connections |
| Runs.PersistenceIsTransparent | server/core/server_manager/server_manager.cpp:342-347 | any number of save and load cycles anywhere in a run is invisible |
| Runs.CountersAreSessions | server/models/user/user.hpp:42-73 | in every reachable state a counter is the number of descriptors of its user, and logged in means there is one |
| Runs.CountersNeverSaturate | server/models/user/user.hpp:61-73 | neither the int32 wrap-around nor the clamp at zero ever fires |
| Runs.ListedUnlessCutOff | server/commands/logout_command.cpp:73-83 | in every reachable state a logged-in descriptor is listed under its user if and only if no other session of that user was disconnected since it logged in |
| Runs.IndexesStayInverse | server/commands/login_command.cpp:29-30 | in every run nothing wrong is listed, and the two session maps are exact inverses if and only if no session is cut off |
| Runs.LastSessionsCutNobody | server/commands/logout_command.cpp:69-90 | a run in which nobody disconnects while their user has another session cuts nobody off |
| DeliveryLoss.LostMessage | server/commands/logout_command.cpp:83 | for any name, body and descriptors, a run after which the server accepts a private message and tells nobody, though its receiver is logged in |
| Chunking.TwoChunks | server/network/reciever/reciever.cpp:22-31 | two chunks may be delivered exactly when their concatenation may, with the same final state |
| Chunking.ChunkedRun | server/commands/command_dispatcher.cpp:60-99 | any cutting of a byte stream into chunks is the same run as its one-shot delivery |
| Traffic.OutgoingIsFifo | server/core/client_manager/client_manager.cpp:72-111 | over every run with partial sends: bytes sent then bytes pending are the encodings of the packets queued, in order, and re-frame into them |
| Traffic.RepliesFollowRequests | server/commands/command_dispatcher.cpp:60-99 | over every run: the queued packets that are not events are the replies to the connection's own requests, request by request |
| Effects.LoginKnownName | server/commands/login_command.cpp:41-56 | a payload holding a user's name logs in that user: its counter alone goes up by one, nobody is added, every other session stays, everybody logged in is told uuid and name |
| Effects.LoginNewName | server/commands/login_command.cpp:41-56 | a payload holding a new name appends one user of that name with the drawn uuid, logged in once |
| Effects.LoginRefused | server/commands/login_command.cpp:10-40 | wrong size, a descriptor already logged in, no text: the status, and nothing else happens |
| Effects.LogoutEnds | server/commands/logout_command.cpp:34-58 | the user's counter goes down by one, the descriptor leaves both maps, everybody is told who left |
| Effects.LogoutRefused | server/commands/logout_command.cpp:27-38 | a payload, or nobody logged in: the status, and nothing else happens |
| Effects.DisconnectEnds | server/commands/logout_command.cpp:69-90 | the same store change, with the user's whole by-uuid entry gone |
| Effects.UseSelects | server/commands/use_command.cpp:42-63 | the three texts of the payload become the context, nothing else changes |
| Effects.UseRefused | server/commands/use_command.cpp:26-60 | wrong size, nobody logged in, a malformed field, a broken chain: the status, and nothing else happens |
| Effects.UnknownCommand | server/commands/command_dispatcher.cpp:53-56 | a code no command has is answered ERR_BAD_REQUEST, and nothing else happens |
| StoreEffects.SubscribeAdds | server/commands/subscription_commands.cpp:73-101 | the requester is appended to the subscribers of the team whose uuid the payload holds and shown to itself, or RPL_OK and no change when it is one already |
| StoreEffects.UnsubscribeRemoves | server/commands/subscription_commands.cpp:103-130 | the requester is taken out, the others keep their order, or RPL_OK and no change |
| StoreEffects.SubscriptionsRefused | server/commands/subscription_commands.cpp:73-93 | nobody logged in, no uuid in the payload, no such team: the status, and nothing else happens |
| StoreEffects.SendStores | server/commands/send_command.cpp:61-68 | one message is stored, from the requester to the uuid and with the body of the payload, at the time; the receiver's listed connections are told author and body, nobody else is |
| StoreEffects.SendRefused | server/commands/send_command.cpp:25-60 | wrong size, nobody logged in, malformed or empty fields, an unknown user: the status, and nothing else happens |
| CreateEffects.TeamIsCreated | server/commands/create_command.cpp:160-197 | one team more, with the name and description of the payload and its creator as only subscriber; the creator reads back uuid, name and description, everybody logged in is told the same |
| CreateEffects.ChannelIsCreated | server/commands/create_command.cpp:224-272 | one channel more in the context's team, named and described as asked, read back, and told to the team's subscribers |
| CreateEffects.ThreadIsCreated | server/commands/create_command.cpp:274-322 | one thread more in the context's channel, by the requester, at the time, titled and worded as asked, read back, and told to the subscribers |
| CreateEffects.ReplyIsCreated | server/commands/create_command.cpp:324-370 | one reply more in the context's thread, by the requester, at the time, worded as asked, read back with its thread, and told to the subscribers |
| CreateEffects.CreateRefused | server/commands/create_command.cpp:372-391 | nobody logged in, a broken context, a payload that is not what the level asks for: the status, and nothing else happens |
| CreateEffects.CreateUnresolved | server/commands/create_command.cpp:199-222 | a context whose team, channel or thread is not there, or whose team the requester does not subscribe to: the status, and nothing else happens |
| CreateEffects.NameTaken | server/commands/create_command.cpp:244-248 | a taken team name, channel name in its team or thread title in its channel: ERR_ALREADY_EXIST, and nothing else happens |
| Targets.NamedIsResolved | server/commands/list_command.cpp:110-158 | looking a context up finds the team, channel or thread whose uuids it holds |
| Targets.UnresolvedIsMissing | server/commands/info_command.cpp:70-111 | and the exact status when one of them is not there or the team is not subscribed to |
| QueryEffects.UsersAreListed | server/commands/users_command.cpp:21-38 | every user, in order, read back as stored with its status, then RPL_OK |
| QueryEffects.UserIsAnswered | server/commands/user_command.cpp:21-60 | the user whose uuid the payload holds |
| QueryEffects.UserIsUnknown | server/commands/user_command.cpp:42-54 | ERR_NOT_FOUND carrying the uuid asked for, when nobody has it |
| QueryEffects.TeamsAreListed | server/commands/list_command.cpp:28-42 | without a context: every team, in order, read back as stored, then RPL_OK |
| QueryEffects.ChannelsAreListed | server/commands/list_command.cpp:44-58 | in a team: its channels, in order |
| QueryEffects.ThreadsAreListed | server/commands/list_command.cpp:60-76 | in a channel: its threads, in order, with author and time |
| QueryEffects.RepliesAreListed | server/commands/list_command.cpp:78-93 | in a thread: its replies, in order, with author, time and body |
| QueryEffects.InfoAnswers | server/commands/info_command.cpp:58-111 | the requester without a context, else the object the context names |
| QueryEffects.LookupsRefused | server/commands/info_command.cpp:58-111 | /list and /info refuse a payload, nobody logged in, and a context that names nothing the requester may see |
| QueryEffects.FollowedAreListed | server/commands/subscription_commands.cpp:41-57 | exactly the teams the requester subscribes to, in order |
| QueryEffects.SubscribersAreListed | server/commands/subscription_commands.cpp:59-71 | exactly the subscribers of the team whose uuid the payload holds, in the order they subscribed |
| QueryEffects.SubscribedRefused | server/commands/subscription_commands.cpp:132-156 | nobody logged in, no uuid in the payload, no such team: the status, and nothing else happens |
| QueryEffects.ConversationIsFilter | server/commands/messages_command.cpp:54-64 | the filter keeps exactly the messages between the two users, with their multiplicity |
| QueryEffects.ConversationIsAnswered | server/commands/messages_command.cpp:28-73 | the messages between the requester and the user whose uuid the payload holds, each as often as stored, by time, with author, time and body |
| QueryEffects.MessagesRefused | server/commands/messages_command.cpp:28-52 | wrong size, nobody logged in, no uuid in the payload, an unknown user: the status, and nothing else happens |
| Journal.LoggedInAsAsked | server/commands/login_command.cpp:10-57 | over every run a connection is logged in exactly when its last accepted login was not followed by an accepted logout, as the user of the name that login gave |
| Journal.SubscribedAsAsked | server/commands/subscription_commands.cpp:73-130 | over every run, restarts included, a user subscribes to a team exactly when the last request answered to that user about it was a subscription or the team's creation |
| History.MessagesAreSends | server/commands/send_command.cpp:61-68 | over every run, restarts included, the stored messages are the /send requests answered RPL_OK, in order, each with the requester, the uuid and body of its payload and its time |
| History.MessagesReply | server/commands/messages_command.cpp:54-72 | in every reachable state, /messages with a known user's uuid in its payload answers one packet per accepted send between requester and that user over the whole run, by time, each with author, time and body, then RPL_OK |
| History.BothSeeTheSame | server/commands/messages_command.cpp:54-72 | A asking with B's uuid and B asking with A's are shown the same multiset |
| ClientManagement.CopyUuid | server/core/client_manager/client.hpp:48-59 | the raw array is the clipped source padded with NULs |
| ClientManagement.ReadUuid | server/core/client_manager/client.hpp:61-66 | what precedes the first NUL |
| ClientManagement.ClientManager.AddClient | server/core/client_manager/client_manager.cpp:5-9 | a fresh entry, unless there is one |
| ClientManagement.ClientManager.RemoveClient | server/core/client_manager/client_manager.cpp:11-15 | the entry is gone, the others unchanged |
| ClientManagement.ClientManager.AppendToIncomingBuffer | server/core/client_manager/client_manager.cpp:30-37 | the data is appended to that connection's input alone |
| ClientManagement.ClientManager.ConsumeIncomingBuffer | server/core/client_manager/client_manager.cpp:58-70 | a prefix of the input is dropped, all of it when too much is asked for |
| ClientManagement.ClientManager.QueueDataToSend | server/core/client_manager/client_manager.cpp:72-79 | the data is appended to that connection's output alone |
| ClientManagement.ClientManager.ConsumeQueuedData | server/core/client_manager/client_manager.cpp:99-111 | a prefix of the output is dropped, all of it when too much is asked for |
| ClientManagement.ClientManager.SetContext | server/core/client_manager/client_manager.cpp:113-125 | the three arrays hold the padded uuids, buffers unchanged |
| ServerRoutines.FindIf | server/commands/command_utils.cpp:14-23 | the first element that satisfies the predicate, or none |
| ServerRoutines.EraseRemove | server/commands/logout_command.cpp:42-44 | every occurrence is removed, the rest keeps its order |
| ServerRoutines.IsChannelUuidUsed | server/commands/create_command.cpp:19-29 | true exactly when some channel of some team has the uuid |
| ServerRoutines.IsThreadUuidUsed | server/commands/create_command.cpp:31-43 | true exactly when some thread of some channel of some team has the uuid |
| ServerRoutines.GenerateUuid | server/commands/command_utils.cpp:77-93 | every generated uuid is well formed |
| ServerRoutines.SortByTime | server/commands/messages_command.cpp:66-70 | a permutation in non-decreasing time |
| ServerHandlers.Server.constructor | server/core/server_manager/server_manager.cpp:266-282 | the server boots into the state its files denote |
| ServerHandlers.Server.Shutdown | server/core/server_manager/server_manager.cpp:342-347 | booting from the files it leaves is a restart |
| ServerHandlers.Server.QueueToLoggedIn | server/commands/logout_command.cpp:11-25 | a walk of the session map in any order queues the packet once for each descriptor but the excluded ones |
| ServerHandlers.Server.QueueToSubscribers | server/commands/create_command.cpp:143-151 | the same for the descriptors of subscribers |
| ServerHandlers.Server.HandleLogin | server/commands/login_command.cpp:10-57 | does what Commands.Login says, with an unused uuid for a new user; or has changed nothing because the uuids drawn for a new user were all in use; what that is from the payload: Effects.LoginKnownName, LoginNewName, LoginRefused |
| ServerHandlers.Server.HandleLogout | server/commands/logout_command.cpp:27-59 | does what Commands.Logout says, which is Effects.LogoutEnds and LogoutRefused |
| ServerHandlers.Server.HandleClientDisconnection | server/commands/logout_command.cpp:61-91 | does what Commands.Disconnect says, which is Effects.DisconnectEnds |
| ServerHandlers.Server.HandleUsers | server/commands/users_command.cpp:21-38 | does what Commands.Users says, which is QueryEffects.UsersAreListed and UsersRefused |
| ServerHandlers.Server.HandleUser | server/commands/user_command.cpp:21-60 | does what Commands.UserInfo says, which is QueryEffects.UserIsAnswered, UserIsUnknown and UserRefused |
| ServerHandlers.Server.HandleInfo | server/commands/info_command.cpp:58-111 | does what Commands.Info says, which is QueryEffects.InfoAnswers and LookupsRefused |
| ServerHandlers.Server.HandleList | server/commands/list_command.cpp:95-158 | does what Commands.List says, which is the four listings of QueryEffects and LookupsRefused |
| ServerHandlers.Server.HandleSubscribe | server/commands/subscription_commands.cpp:73-101 | does what Commands.Subscribe says, which is StoreEffects.SubscribeAdds and SubscriptionsRefused |
| ServerHandlers.Server.HandleUnsubscribe | server/commands/subscription_commands.cpp:103-130 | does what Commands.Unsubscribe says, which is StoreEffects.UnsubscribeRemoves and SubscriptionsRefused |
| ServerHandlers.Server.HandleSubscribedList | server/commands/subscription_commands.cpp:132-158 | does what Commands.SubscribedList says, which is QueryEffects.FollowedAreListed, SubscribersAreListed and SubscribedRefused |
| ServerHandlers.Server.HandleMessages | server/commands/messages_command.cpp:28-73 | does what Commands.Messages says, with a sorted permutation of the conversation; from the payload: QueryEffects.ConversationIsAnswered and MessagesRefused |
| ServerHandlers.Server.HandleSend | server/commands/send_command.cpp:25-69 | does what Commands.Send says, which is StoreEffects.SendStores and SendRefused |
| ServerHandlers.Server.HandleUse | server/commands/use_command.cpp:26-64 | does what Commands.Use says, which is Effects.UseSelects and UseRefused |
| ServerHandlers.Server.HandleCreateTeam | server/commands/create_command.cpp:160-197 | does what Commands.CreateTeam says, with an unused uuid; or has changed nothing because the uuids drawn for a creation that would succeed were all in use |
| ServerHandlers.Server.HandleCreateChannel | server/commands/create_command.cpp:224-272 | the same for Commands.CreateChannel, with a globally unused uuid |
| ServerHandlers.Server.HandleCreateThread | server/commands/create_command.cpp:274-322 | the same for Commands.CreateThread, with a globally unused uuid |
| ServerHandlers.Server.HandleCreateReply | server/commands/create_command.cpp:324-370 | does what Commands.CreateReply says, which is CreateEffects.ReplyIsCreated and the refusals beside it |
| ServerHandlers.Server.HandleCreate | server/commands/create_command.cpp:372-411 | takes the branch the context selects, the retry loops included |
| ServerHandlers.Server.DispatchCommand | server/commands/command_dispatcher.cpp:46-58 | runs the handler of the code, or answers ERR_BAD_REQUEST; stops short, with nothing changed, only for a login or creation whose drawn uuids were all in use |
| ServerHandlers.Server.ProcessClientIncomingPackets | server/commands/command_dispatcher.cpp:60-99 | terminates, having handled exactly the packets of the one-shot parse and left its leftover; or exactly the first of them, the next one still drawing a uuid |
| ServerHandlers.Server.ReadClientData | server/network/reciever/reciever.cpp:22-31 | appends what was received, and fails exactly when that is nothing |
| ServerHandlers.Server.FlushClientData | server/network/sender/sender.cpp:22-35 | removes from the output exactly what was sent |
| PollLoop.ServerManager.RefreshAllPollInterests | server/core/server_manager/server_manager.cpp:122-136 | writability is asked for exactly where output is pending, nowhere else |
| PollLoop.ServerManager.PollSockets | server/core/server_manager/server_manager.cpp:290-291 | may only be entered with writability asked for exactly where output is pending, and reports only what it may |
| PollLoop.ServerManager.ServeClient | server/core/server_manager/server_manager.cpp:75-108 | an error ends the service; else a readable connection first delivers its input, or is given up when the peer is gone; then pending output is flushed exactly if writable, or the connection given up |
| PollLoop.ServerManager.ServeConnection | server/core/server_manager/server_manager.cpp:319-339 | the connection is served as ServeClient says and leaves, as the last step, exactly when it is given up; what the walk has still to visit is unchanged |
| PollLoop.ServerManager.RemoveClientAt | server/core/server_manager/server_manager.cpp:138-159 | one departure step; the list keeps covering listener and connections |
| PollLoop.ServerManager.ServePass | server/core/server_manager/server_manager.cpp:298-340 | terminates; each entry with reported events gets its own group of steps, in list order, and nothing else happens; listener first, list exact and the invariant kept; cut short only by a failed accept or a drawing retry loop, at a stated entry |
| PollLoop.ServerManager.RunPollLoop | server/core/server_manager/server_manager.cpp:260-348 | a server's life over any number of polls: each reports what it may, every reported entry is served, the invariant is kept, and booting from the files it leaves restarts from its last state |
| PollLoop.ServeTwice | server/core/server_manager/server_manager.cpp:260-348 | two processes in a row over the same files are one run with a restart in it, or the run up to the pass that was cut short |
| ClientStream.ReadExact | client/commands/packet_utils.cpp:19-40 | all the wanted bytes in order, or a failure that took a proper prefix; terminates |
| ClientStream.SendPacket | client/commands/packet_utils.cpp:64-75 | exactly the packet is written, or a proper prefix and a failure |
| ClientStream.ReadServerPacket | client/commands/packet_utils.cpp:77-90 | one whole packet is taken off the stream |
| ClientStream.ReadServerReply | client/commands/packet_utils.cpp:183-194 | exactly the leading events and one packet that is not an event are taken |
| ClientStream.DrainEvents | client/main.cpp:63-70 | the drain takes whole packets from the front, in order |
| Lockstep.AnswersStop | client/commands/list_command.cpp:109-156 | every answer the server's grammar allows ends its client loop on its last packet, not earlier |
| Lockstep.ExchangeInLockstep | client/commands/subscription_commands.cpp:153-197 | for every server state, request and interleaving of events, a client loop consumes exactly the non-event packets its handler queued |
| Lockstep.RunInLockstep | client/commands/packet_utils.cpp:183-194 | over every run of the server, requests sent ahead included: loops for a connection's requests, one after another, consume exactly what was queued for it but events |
| ClientCommands.CommandClient.ReadList | client/commands/list_command.cpp:111-156 | the loop with its list code leaves exactly what Lockstep.Consume leaves |
| ClientCommands.CommandClient.ReadSubscribed | client/commands/subscription_commands.cpp:163-197 | the same for the subscribed-list loop, with and without team filter |
| ClientCommands.CommandClient.ReadMessages | client/commands/messages_command.cpp:44-70 | the same for the message loop |
| ClientCommands.CommandClient.ReadUsers | client/commands/users_command.cpp:45-62 | the same for the user-list loop, which fails on an entry of the wrong size |
| ClientCommands.CommandClient.ReadUser | client/commands/user_command.cpp:93-114 | the same for the single-user loop, which waits on after RPL_OK |
| ClientCommands.CommandClient.HandleLogin | client/commands/login_command.cpp:14-51 | one request, one reply, connected only on RPL_OK |
| ClientCommands.CommandClient.HandleLogout | client/commands/logout_command.cpp:14-50 | one request, one reply, view cleared only on RPL_OK |
| ClientCommands.CommandClient.HandleUse | client/commands/use_command.cpp:44-68 | one request, one reply, context set only on RPL_OK |
| ClientCommands.CommandClient.HandleCreate | client/commands/create_command.cpp:112-166 | the payload of the inferred target, one reply, decodable exactly when it has that target's size |
| ClientCommands.CommandClient.HandleSingle | client/commands/subscription_commands.cpp:63-133 | /subscribe, /unsubscribe, /send, /info: one request, one reply, view unchanged |
| ClientCommands.CommandClient.HandleListing | client/commands/users_command.cpp:38-63 | /list, /subscribed, /messages, /users, /user: one request, its whole answer consumed, view unchanged |
| Payloads.UserIsShown | client/commands/users_command.cpp:23-34 | a user reads out of its payload as stored, its counter as a status |
| Payloads.NamedIsShown | client/commands/list_command.cpp:18-46 | a team or channel reads out of its payload as stored |
| Payloads.ThreadIsShown | client/commands/list_command.cpp:48-63 | a thread reads out of its payload as stored, its signed time included |
| Payloads.ReplyIsShown | client/commands/list_command.cpp:65-79 | a reply reads out of its payload with its thread, author, time and body |
| Payloads.MessageIsShown | client/commands/messages_command.cpp:13-26 | a private message reads out of its payload with author, time and body |
| Payloads.ConnectionEventIsShown | client/commands/packet_utils.cpp:94-113 | login and logout events name the user |
| Payloads.PrivateMessageIsShown | client/commands/packet_utils.cpp:114-123 | the event carries author and body |
| Payloads.ReplyEventIsShown | client/commands/packet_utils.cpp:165-178 | the event carries team, thread, author and body |
| Payloads.TargetIsUnderstood | client/commands/subscription_commands.cpp:75-79 | a uuid argument reaches the server as typed |
| Payloads.SendIsUnderstood | client/commands/send_command.cpp:29-32 | a private message typed to a known user is accepted for that user, its body cut to what fits |
| Payloads.ReplyIsUnderstood | client/commands/create_command.cpp:128-130 | a reply typed by the client is the one the server parses, cut to what fits |
| Payloads.ThreadIsUnderstood | client/commands/create_command.cpp:149-154 | the same for a thread's title and body |
| Payloads.NamedIsUnderstood | client/commands/create_command.cpp:139-148 | the same for the name and description of a team or channel |
| TypedCommands.PlainRequests | client/commands/subscription_commands.cpp:63-133 | commands of no argument or one uuid send their own code, with that uuid in the field |
| TypedCommands.TypedLogin | client/commands/login_command.cpp:14-51 | a typed name logs in the user of that name, cut to what fits |
| TypedCommands.TypedFirstLogin | client/commands/login_command.cpp:14-51 | a typed new name makes one user of that name |
| TypedCommands.TypedSend | client/commands/send_command.cpp:14-54 | a typed private message is stored and delivered with the author, receiver and body typed |
| TypedCommands.TypedSubscriptions | client/commands/subscription_commands.cpp:63-133 | after a typed /subscribe the requester subscribes to that team, after a typed /unsubscribe it does not, nothing else changes |
| TypedCommands.TypedMessages | client/commands/messages_command.cpp:28-72 | a typed /messages shows the conversation with the user named |
| TypedCommands.TypedUse | client/commands/use_command.cpp:44-68 | a context typed in valid form is the one the connection gets |
| TypedCommands.CreateRequests | client/commands/create_command.cpp:112-158 | a typed /create sends the payload of the inferred target, holding what was typed, cut to what fits |
| TypedCommands.TypedReply | client/commands/create_command.cpp:112-166 | a reply typed in a thread is stored under the requester as typed and read back by the client |
| Contexts.UseRequestParses | server/commands/use_command.cpp:11-24 | a context typed in valid form is the one the server extracts |
| Contexts.TurnsKeepLink | server/commands/use_command.cpp:26-64 | through any commands of a client and anything other clients do, its view stays linked to the server's |
| Contexts.TargetsAgree | client/commands/create_command.cpp:16-28 | the inferred create target is the server's branch if and only if the client has not logged out of a non-empty context without a successful /use since |
| Contexts.CreatedIsWellFormed | client/commands/create_command.cpp:35-90 | while they agree, every created object comes back with the payload size the client expects |
| Contexts.StaleContext | server/commands/logout_command.cpp:27-59 | for any name and team, a session in which the client means a team and the server a channel |
| ClientSessions.SessionIsRun | server/commands/command_dispatcher.cpp:60-99 | the steps of a session of one client among others are a run of the server |
| ClientSessions.ReadsItsAnswer | client/commands/packet_utils.cpp:183-194 | with only events unread before, the first reply a client reads is the first one to its own request, and its loop ends with only events left |
| ClientSessions.NameIsKnown | client/commands/login_command.cpp:40-51 | over every session, while connected, the server has the client logged in as the user of the name it remembers |
| ClientSessions.SessionInLockstep | client/main.cpp:63-70 | over every run from the accepted connection, any commands, drains and other clients: no reply reaches the drain or a later command, every loop ends on its own last reply, and the view made from what was read is the server's exactly while synced |

## Left out

- Sockets, `poll`, `accept`, `dup`, signals: what they return is arbitrary (chunk contents, write sizes, readiness, new descriptors), within what the kernel promises.
- Exceptions: a failing `accept` ends the server without saving; the model says at which entry of which poll, and nothing about what follows.
- ServerHandlers.Server.HandleLogin: that a uuid retry loop ends is only probable. It is followed for `patience` draws, any number fixed beforehand; it is reported as still drawing only when more draws than that in a row were in use.
- ServerRoutines.SortByTime: `std::sort` is modelled by an insertion sort of which only the contract is used, so nothing depends on the order of equal times.
- ServerRoutines.GenerateUuid: the random engine is an arbitrary choice of hexadecimal digits; the clock is an arbitrary 64-bit value.
- Printer, logger and the foreign display library: their calls are dropped.
- ClientCommands.CommandClient.HandleListing: console parsing, usage texts and the printing of entries are dropped; an argument given as an empty string is not told from a missing one.
- ClientStream.ReadServerReply: malformed event payloads are only reported by the client, so their sizes are not modelled.
- Filesystem directories, paths and failing writes: a file is a string.
- ServerHandlers.Server.Shutdown: a shutdown between two polls; the output still pending is lost, as in the program.
- Users and teams inside vectors are values in the handlers; their updates in place are modelled in ModelObjects. Channels, threads and messages change only by appending to vectors.
- ClientManagement.ClientManager.SetContext: the client record is a value in the map; the array copies are modelled on arrays.
- Setters of the model classes that nothing calls, the vector form of `buildPacket`, `broadcastPacket`, and `help_command.cpp` are unused.
- FixedFields.LittleEndian: integers inside payloads are copied in host order by the program; the model fixes little-endian at both ends.
