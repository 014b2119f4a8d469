# Verified models of the text splitter, the broker protocol, the codecs and the token machine

This directory models four parts of the Ailoy runtime in Dafny and proves what they are for.
`dafny verify dfyconfig.toml` checks everything.

**Text splitter** (`vm/src/split_text.cpp` on `vm/src/string_util.*`). The loops are methods with
their deque, running total and in-place vectors; each is proved equal to a function on index
windows of the splits (`MergeWindows`) or on the recursion (`SplitText`). About these functions
the theorems say: the groups of a merge are contiguous windows whose right ends increase, that
leave no gap and share the longest admissible suffix; every chunk is a substring of the text at
a position that never goes back; nothing visible is lost when separators are blank; and exactly
when a chunk can be longer than `chunk_size`. A merged window longer than `chunk_size` is one
split preceded by an empty one. For every list of separators that leaves some visible character
unused, `chunk_size` is respected on all texts exactly when the list has the empty separator, and
every separator in which no earlier one occurs is slim: at most one character is left of it once
its leading blanks are cut (for `chunk_size` 1, once it is trimmed). Blank separators are slim.
The bound needs no relation between overlap and chunk size.

**Broker, VM and client runtimes** (`broker/src/broker.cpp`, `vm/src/vm.cpp`,
`bindings/js-node/src/runtime.ts`, `bindings/python/ailoy/runtime.py`). The three parties are
classes whose methods are proved against pure functions (`Route`, `Defines`, `Deletes`, `Stops`,
`RegisterResponse`, ...). `SystemModel` composes the same functions into a step system: any number
of clients, the broker and the first VM, joined by FIFO mailboxes, every interleaving. The VM
hands its packets over one by one, so others run in the middle of a handler. Five invariants are
proved of every step, a sixth one, about channels, of every step of a safe run. Their consequences
for every state that can be reached are in `ProtocolTheorems` (calls and their iterators, the
broker's maps), `VerdictTheorems` (why a call was answered as it was), `ComponentTheorems` (define
and delete) and `ConnectTracking` (connect and disconnect). A call carries its history (`outs`,
`steps`); the programs never look at it.

**Mailboxes** (`core/src/inproc_socket.cpp`, `core/src/thread.cpp`). Enqueueing and notifying
happen under different locks. `MailboxModel` has the classes and a step system in which every
thread may stop between the two. It shows exactly how many wake-ups are lost: as many as
notifications that come before `set_monitor`. The broker attaches an accepted socket before it
sets the monitor (`broker/src/broker.cpp:64-67`), so this can happen.

**Codecs** (`core/src/packet.cpp`, `core/src/value.cpp`). Writers and readers walk a byte buffer;
round trips are proved with their exact conditions, for ndarrays, value trees of any depth,
packets, and protocol packets through the whole chain of template, frame, bytes and back.
CBOR is a pair of functions of which only this is assumed: decoding inverts encoding, up to a
non-negative signed integer becoming unsigned, since CBOR has one encoding for both (section 3.1
of RFC 8949).

**Token-mode machine** (`vm/src/mlc_llm/mlc_llm_engine.cpp`). The per-token machine is proved to
send exactly what cutting the whole token list at its end markers gives, for all markers, tokens
and finish reasons. Of a template without markers, both are the empty string, and of everything
after the first empty token only finish reasons are sent on.

## Assumptions of the protocol theorems

- Transaction ids are fresh (uuids).
- Every send finds room in the mailbox; the VM ignores failed sends.
- Only the VM subscribes.
- A client calls `next()` again only when the previous promise of that iterator is settled.

What is said about channels (`SubscriptionTable`, `StopLeavesNothing`, `ReplyIsBarrier`,
`DefinedStaysReachable`, `DeletedStaysGone`, `DeletedNameStaysGone`) is about safe runs: no two
modules share a name, and no define that the VM accepts is for a name that a component bears or
announces a channel that a component has. The guard of `handle_define_component` refuses neither:
it looks the name up in `factories`, not in `components`. `ChannelTracking.DefineIff` shows that
the broker takes all announcements of a define exactly when it is safe in this sense,
`ChannelTracking.RedefineIff` and `ChannelTracking.RedefineIsRefused` what happens when the name is
taken, and `ChannelTracking.NewNameAgrees` and `ChannelTracking.DeleteIff` what happens when a
channel is shared: nothing until one of the two components is deleted. New names are enough when
no component name, or no method name, has a slash (`ChannelTracking.SlashFreeIsSafe`);
`Packets.SharedIff` says exactly which channels can be shared.

## Model

| member | source | states |
|---|---|---|
| StringUtil.Trim | vm/src/string_util.hpp:41-56 | trims in place; the result is the text between the outer blanks |
| StringUtil.TrimmedIsCore | vm/src/string_util.hpp:41-56 | what is left has no blank at either end and only blanks were dropped |
| StringUtil.TrimmedUnique | vm/src/string_util.hpp:41-56 | there is only one such part |
| StringUtil.Join | vm/src/string_util.hpp:24-39 | the loop computes the recursive join |
| StringUtil.Search | vm/src/string_util.cpp:9 | the leftmost occurrence of the delimiter, or the length |
| StringUtil.SplitText | vm/src/string_util.cpp:6-12 | the iterator of split_view yields the pieces between leftmost matches; single characters for an empty delimiter, nothing for an empty text |
| StringUtil.JoinSplits | vm/src/string_util.cpp:6-12 | joining the splits with the separator gives the text back, for every text and separator |
| StringUtil.SplitsAreFree | vm/src/string_util.cpp:6-12 | no split contains a non-empty separator |
| StringUtil.SplitsOfJoined | vm/src/string_util.hpp:24-39 | splitting a join gives the pieces back exactly when the separator is first met where each piece ends |
| SplitText.CalculateTotalDirect | vm/src/split_text.cpp:26-36 | the slow total is the sum of lengths and separators |
| SplitText.RunningTotalIsDirect | vm/src/split_text.cpp:54-79 | the running total is the direct total of the deque, total_if_merge is it with the new length when that is positive, and no total exceeds the joined text |
| SplitText.MergeSplits | vm/src/split_text.cpp:38-84 | the deque loop with its unsigned totals yields the chunks of the index windows; it never wraps, never reads an empty deque, and ends |
| SplitText.PopWindow | vm/src/split_text.cpp:67-74 | the pop loop stops at the first suffix that is no longer than chunk_overlap and leaves room for the next split or is empty, with both totals right |
| SplitText.MakeRoom | vm/src/split_text.cpp:55-76 | before a split goes in, the window is completed and popped exactly when it would grow too long |
| MergeWindows.Merge.FirstFit | vm/src/split_text.cpp:67-74 | the first start from which the window is no longer than chunk_overlap and leaves room for the next split, or is empty; from every start before it, it is longer than chunk_overlap, or leaves no room and is not empty |
| MergeWindows.WindowInText | vm/src/split_text.cpp:47-51 | a joined window is the part of the joined text between two positions |
| MergeWindows.GroupsAreWindows | vm/src/split_text.cpp:53-81 | the completed groups are contiguous windows from the first split to the last, right ends strictly increasing, no gap, each closed because the next split would make it longer than chunk_size; what neighbours share is no longer than chunk_overlap and leaves room for that split (or is empty), and any longer suffix would not |
| MergeWindows.ChunksAreGroups | vm/src/split_text.cpp:38-84 | the chunks are these groups, joined and trimmed, in order; only blank ones are left out |
| MergeWindows.WindowSize | vm/src/split_text.cpp:58-78 | a window longer than chunk_size is one split behind splits that join to nothing |
| MergeWindows.ChunkTooLong | vm/src/split_text.cpp:38-84 | some chunk is longer than chunk_size exactly when some split, with the separator in front if the split before is empty, is longer once trimmed |
| MergePlacement.MergeIsFaithful | vm/src/split_text.cpp:38-84 | the chunks of a merge lie in the joined text in order, overlap by at most chunk_overlap, and cover all that is visible when the separator is blank |
| SplitText.SplitTextBySeparator | vm/src/split_text.cpp:86-95 | is the merge of the splits |
| SplitText.PickBestSeparator | vm/src/split_text.cpp:97-122 | picks the first separator that is empty or occurs in the text, else the last; the new list is what follows it |
| SplitText.Best | vm/src/split_text.cpp:97-122 | the list for the next level is strictly shorter |
| SplitTheorems.BestIsFirstUsable | vm/src/split_text.cpp:97-122 | the separator is the first that is empty or occurs in the text, and those behind it are left, none behind the empty one; it is the last, and none is left, if there is no such |
| SplitText.SplitTextRecursive | vm/src/split_text.cpp:135-175 | the loop over the splits, with its vectors of good splits and chunks, computes the recursive specification and terminates |
| SplitText.SplitTextBySeparatorsRecursively | vm/src/split_text.cpp:177-185 | is the recursive split |
| SplitTheorems.RunsAreMerged | vm/src/split_text.cpp:145-173 | a run of splits shorter than chunk_size is merged as a whole; the split behind it, not being shorter, is split with the separators left, or kept untrimmed when none is left |
| SplitTheorems.ShortPiecesAreMerged | vm/src/split_text.cpp:135-175 | when all splits are shorter than chunk_size, the recursive splitter is the plain one with the separator picked |
| SplitTheorems.SeparatorSplitIsFaithful | vm/src/split_text.cpp:86-95 | every chunk is a substring of the text, start and end positions never decrease, overlap is bounded, blank separators lose nothing visible |
| SplitTheorems.RecursiveSplitIsFaithful | vm/src/split_text.cpp:135-175 | the same for the recursive splitter, at every level of the recursion |
| SplitTheorems.RecursiveSplitLosesNothing | vm/src/split_text.cpp:135-175 | blank separators, overlap 0: the visible characters of the chunks, concatenated, are those of the text |
| SplitTheorems.SeparatorSplitLosesNothing | vm/src/split_text.cpp:86-95 | the same for one separator |
| SizeBound.RecursiveWithin | vm/src/split_text.cpp:135-175 | no chunk is longer than chunk_size when the empty separator is on the list and every separator that can be reached is slim |
| SizeBound.DefaultsAreSafe | vm/src/split_text.cpp:135-185 | the default separators give chunks that are bounded, in order, and complete |
| SizeBound.LevelWithin | vm/src/split_text.cpp:139-163 | the same at every level of the recursion: a text handed down contains none of the separators used up |
| SizeBound.NotSlimBreaks | vm/src/split_text.cpp:145-173 | a separator that can be reached and is not slim breaks the bound, on a constructed text |
| SizeBound.NoEmptyBreaks | vm/src/split_text.cpp:158-159 | so does a list without the empty separator |
| SizeBound.BoundIff | vm/src/split_text.cpp:135-175 | for every list of separators without some visible character, and every chunk_size from 1: the bound holds on all texts exactly when the list has the empty separator and those that can be reached are slim |
| SizeBound.BoundHoldsIffSlim | vm/src/split_text.cpp:135-175 | for a list of one separator and the empty one, exactly when the separator is slim, whatever characters it has |
| Packets.ChannelInjective | core/src/packet.cpp:16-32 | get_channel tells instructions apart when no component name, or no method name, has a slash |
| Packets.ShareOnlyMethods | core/src/packet.cpp:20-28 | two instructions that share a channel are calls of methods of two components |
| Packets.SharedIff | core/src/packet.cpp:16-32 | another instruction has the channel exactly when it is a method's and the component name or the method name has a slash |
| BrokerModel.Broker.OnAccept | broker/src/broker.cpp:63-68 | an accepted socket is added, nothing else changes |
| BrokerModel.Broker.OnRecv | broker/src/broker.cpp:69-154 | the packet switch changes the three maps and sends as Route says, in every branch |
| BrokerModel.ChannelsHaveOwners | broker/src/broker.cpp:86-125 | whoever sends what: nobody takes or drops a channel of another node, and only a subscribe adds one, for its sender |
| BrokerModel.AnnouncementIsAnswered | broker/src/broker.cpp:98-125 | an announcement is answered to its sender, with true exactly if the channel was free to subscribe or the sender's to unsubscribe, and the table changes just then |
| BrokerModel.Broker.DropSubscriptions | broker/src/broker.cpp:88-93 | exactly the channels of the leaving socket are erased |
| VmModel.Vm.OnImportModule | vm/src/vm.cpp:26-46 | inserts the new names and announces every operator and factory of the module, expecting a response to each |
| VmModel.InsertedOnce | vm/src/vm.cpp:29-38 | a name that two modules share is kept once, and no name is lost |
| VmModel.Vm.OnStop | vm/src/vm.cpp:48-76 | unsubscribes every operator, factory and component with its methods |
| VmModel.Vm.HandleDefineComponent | vm/src/vm.cpp:317-374 | the three refusals in order, with nothing changed; or the announcements, the registration and the reply true with an empty map |
| VmModel.Vm.HandleDeleteComponent | vm/src/vm.cpp:376-415 | the refusal; or the removal, the announcements and the reply true with an empty map |
| VmModel.Vm.HandleCallFunction | vm/src/vm.cpp:273-315 | the replies of the step loop when the operator exists and initializes; else the one refusal due |
| VmModel.Vm.HandleCallMethod | vm/src/vm.cpp:417-467 | the replies of the step loop when component and method exist and the operator initializes; else the one refusal due |
| VmModel.Vm.StepLoop | vm/src/vm.cpp:300-314 | sends one reply per step until the first that finishes or fails, and goes on while there is none |
| VmModel.RepliesForAt | vm/src/vm.cpp:300-314 | these replies are numbered without gap, one for each step, and stop there |
| VmModel.Vm.OnRespond | vm/src/vm.cpp:193-196 | a response is checked off |
| RuntimeModel.Runtime.RegisterExecResolver | bindings/js-node/src/runtime.ts:218-245 | takes a buffered reply, or waits; throws when another resolver of the call waits |
| RuntimeModel.Runtime.TakeResponse | bindings/js-node/src/runtime.ts:229-232 | the reply leaves the buffer, an empty inner map goes with it |
| RuntimeModel.Runtime.RegisterExecResponse | bindings/js-node/src/runtime.ts:247-266 | settles the waiting promise of this index, or buffers |
| RuntimeModel.Runtime.Next | bindings/js-node/src/runtime.ts:345-355 | done once finished, else asks for the next index; nothing changes when it throws |
| RuntimeModel.ArrivalKeeps | bindings/js-node/src/runtime.ts:247-266 | a reply that arrives in any order keeps the reassembly invariant of all calls |
| RuntimeModel.NextKeeps | bindings/js-node/src/runtime.ts:332-357 | so does next(), which does not throw when no other next() of the call waits |
| RuntimeModel.AnyOrder | bindings/js-node/src/runtime.ts:218-287 | for every order of replies and next() calls: the iterator yields indices 0..n in order, a waiting resolver and a buffered reply for one index never coexist, and on success nothing of the call remains |
| RuntimeModel.ErrorEndsIff | bindings/js-node/src/runtime.ts:233-258 | an error that arrives when it is its turn reaches the consumer, and finishes the iterator exactly if next() was waiting for it; if not, one more next() waits for the index behind it |
| RuntimeModel.BufferedErrorLeavesOpen | bindings/js-node/src/runtime.ts:225-237 | an error that came before its turn reaches the consumer when next() gets to it, and never finishes the iterator |
| PythonRuntime.Client.SyncListen | bindings/python/ailoy/runtime.py:86-94 | files a packet under transaction and index; without a packet nothing happens |
| PythonRuntime.Client.Deliver | bindings/python/ailoy/runtime.py:86-94 | a reply may come at any time, in any order, to a call of any length |
| PythonRuntime.Client.Await | bindings/python/ailoy/runtime.py:137-138 | listening ends with the wanted reply exactly if it has come; what comes for other calls is filed, and nothing is lost |
| PythonRuntime.Client.CallIter | bindings/python/ailoy/runtime.py:130-148 | makes a generator, from any buffer, whether the call will be answered in full or not |
| PythonRuntime.Client.Next | bindings/python/ailoy/runtime.py:133-146 | resuming one generator among many yields the next value of its call, raises its error or stops, and is blocked exactly if the reply has not come; on stopping nothing of the call is left, on an error an empty entry; no other reply is lost |
| PythonRuntime.Client.Call | bindings/python/ailoy/runtime.py:121-128 | if it ends the answer was complete, and it gives the values in index order and the operator's error; if not, it waits for a reply that has not come, with the values of all before it |
| PythonRuntime.ResumedTimes | bindings/python/ailoy/runtime.py:133-146 | resumed k times a generator has yielded the first k values of its answer, or all there are, each once; it closes only behind a complete answer, all of which it has given |
| PythonRuntime.Client.AwaitOnly | bindings/python/ailoy/runtime.py:150-166 | define and delete end with the only reply exactly if it has come; an error stays buffered |
| PythonRuntime.YieldsAll | bindings/python/ailoy/runtime.py:133-146 | what an answer yields, value by value, and when it raises |
| CallTracking.CallsStep | broker/src/broker.cpp:126-150 | every action of every party keeps the whereabouts of all execute packets and replies: none lost, copied, reordered or misdirected |
| CallTracking.ReadReply | broker/src/broker.cpp:138-150 | a reply the broker reads belongs to a call in its map, mapped to the caller |
| ChannelReplay.StopCovers | vm/src/vm.cpp:48-76 | what on_stop unsubscribes is what the VM serves, each channel once |
| ChannelReplay.ReplaySubscriptions | broker/src/broker.cpp:98-108 | fresh distinct channels are all accepted and added |
| ChannelReplay.ReplayUnsubscriptions | broker/src/broker.cpp:109-125 | owned distinct channels are all accepted and removed |
| ChannelReplay.ServesIff | core/src/packet.cpp:16-32 | the channels a VM serves, spelled out: those of its operators, factories and components and of their methods, and no others |
| ChannelTracking.ChannelsStep | vm/src/vm.cpp:355-410 | every action of a safe run keeps the agreement of table, queued announcements and components |
| ChannelTracking.DefineIff | vm/src/vm.cpp:340-373 | the broker takes all announcements of a define exactly when no component bears the name and none has one of its channels |
| ChannelTracking.SlashFreeIsSafe | core/src/packet.cpp:25-28 | a new name is enough when no component name, or no method name, has a slash |
| ChannelTracking.RedefineIff | vm/src/vm.cpp:340-373 | after a define under a taken name the table is what the VM serves exactly when every old method is among the new ones |
| ChannelTracking.RedefineIsRefused | broker/src/broker.cpp:98-104 | in any case the broker refuses to subscribe its delete channel |
| ChannelTracking.NewNameAgrees | vm/src/vm.cpp:355-373 | after a define under a new name the table is what the VM serves, shared channels or not |
| ChannelTracking.DeleteIff | vm/src/vm.cpp:393-410 | after a delete it is exactly if the component shared no channel with another one |
| ResponseTracking.ResponsesStep | vm/src/vm.cpp:160-199 | every action keeps expected_responses equal to what is unread or unanswered |
| ResponseTracking.RouteAnswers | broker/src/broker.cpp:98-125 | the broker answers each announcement exactly once, to its sender |
| ComponentTracking.BarrierStep | vm/src/vm.cpp:355-414 | every action that leaves a channel alone keeps its announcements ahead of the reply, and the VM as it was on that channel |
| ComponentTracking.TableIsSettled | vm/src/vm.cpp:355-414 | a client that holds the reply sees the broker agree with the VM on the channel |
| OperatorTracking.OperatorsStep | vm/src/vm.cpp:292-314 | every action keeps: the replies sent are the results of a legal run of the call's operator |
| OperatorTracking.SpellRun | vm/src/debug_module.cpp:56-68 | a complete run of spell yields the characters of its text; of the empty text, one empty string and then an error |
| Operators.SpellOperator.Step | vm/src/debug_module.cpp:56-68 | returns the character at the stored index and increments it; resets when finished |
| Operators.SpellOperator.RunToEnd | vm/include/module.hpp:160-181 | stepping until finish or error terminates and is such a run |
| Operators.Accumulator.CallPut | vm/src/debug_module.cpp:89-109 | appends to base, counts and returns an empty map; or fails and changes nothing |
| Operators.PutsAccumulate | vm/src/debug_module.cpp:89-135 | after any calls, base is followed by the texts of the good ones in order, and count is their number modulo 2^64 |
| ClientTracking.ClientsStep | bindings/js-node/src/runtime.ts:218-357 | every action keeps every runtime in step with exactly the replies its client has taken |
| ClientTracking.TakenReply | bindings/js-node/src/runtime.ts:247-250 | a reply a client takes is to a call of its own and new to it |
| ProtocolTheorems.EndToEnd | vm/src/vm.cpp:300-314 | in every run, the values an iterator has yielded are the operator's successive step results, in order, each once, ending at finish or at the operator's error |
| ProtocolTheorems.SpellEndToEnd | vm/src/debug_module.cpp:56-68 | spell returns the characters of a non-empty text across the whole stack; finished exactly when all are there |
| ProtocolTheorems.Quiescent | broker/src/broker.cpp:126-150 | with nothing on the way and the VM idle, every call not dropped by a stop is answered in full and the answer is with its client |
| ProtocolTheorems.NextsEndIt | bindings/js-node/src/runtime.ts:345-355 | from there one next() for each reply left ends the iterator: it has yielded the values of all steps and is finished, or shows the error; an iterator that still waits has got there, and shows the error |
| ProtocolTheorems.ErrorThenSilence | bindings/js-node/src/runtime.ts:238-243 | a promise of next() that waits after the error is never settled, in any run |
| ProtocolTheorems.TransactionMap | broker/src/broker.cpp:126-150 | the transaction map is exactly the forwarded executes whose finishing reply has not passed, each with its sender |
| ProtocolTheorems.ReplyIsDelivered | broker/src/broker.cpp:138-150 | no reply of the VM finds its transaction missing, and it goes to the caller |
| ProtocolTheorems.RepliesAreNumbered | core/include/packet.hpp:202-258 | replies per call are numbered from 0 with finish on the last only |
| ProtocolTheorems.SubscriptionTable | vm/src/vm.cpp:26-76 | in every safe run: replaying the VM's queue on the table gives exactly the channels it serves, none after a stop, and with the queue empty the table is these; no announcement is ever refused |
| ProtocolTheorems.StopLeavesNothing | vm/src/vm.cpp:174-179 | once the stopped VM's queue is read, the table is empty |
| ProtocolTheorems.ExpectedResponses | vm/src/vm.cpp:215-252 | expected_responses is what is unread or unanswered, and empty when both queues are |
| VerdictTheorems.TakenIsJudged | vm/src/vm.cpp:273-467 | when the VM takes a call of an operator or method it has, and initialize is ready, it runs exactly that, with nothing sent yet; any other call is answered at once, with the one reason due, or with true and an empty map |
| VerdictTheorems.EveryAnswerIsDue | vm/src/vm.cpp:273-467 | in every run: a call the broker turned down found no subscriber of its channel; a call the VM refused named something absent when it was taken, or got the reason of initialize or the factory; every other one was run in the state initialize gave, or succeeded |
| VerdictTheorems.HeldIsVerdict | vm/src/vm.cpp:317-415 | whatever reply a client holds to a define or a delete, at any later time, is the only one, and the one due when it was taken |
| ConnectTracking.ConnectsStep | broker/src/broker.cpp:84-97 | every action of every party keeps: a connect or disconnect of a client is unread, or its response is on the way, or taken, exactly one of these and once; no response to a client says false |
| ConnectTracking.ConnectIsAnswered | broker/src/broker.cpp:84-97 | so in every run; with nothing on the way, the client has taken exactly one response, and it says true |
| ConnectTracking.LeavingIsLocal | broker/src/broker.cpp:87-97 | a disconnect of a client removes its socket, and nothing else |
| ComponentTheorems.ReplyIsBarrier | vm/src/vm.cpp:355-414 | whoever holds the reply to a define or delete finds the table as the VM left it, on every channel not announced since |
| ComponentTheorems.SuccessTells | vm/src/vm.cpp:317-415 | the reply held says true exactly if a define was of a factory, under a name that is no factory's, with a component made, or a delete of a component that existed |
| ComponentTheorems.DefinedStaysReachable | vm/src/vm.cpp:355-373 | whoever holds the success reply to a define finds the delete channel and all method channels of the component owned by the VM, until another operation on it or a stop is processed |
| ComponentTheorems.DeletedStaysGone | vm/src/vm.cpp:393-414 | whoever holds the success reply to a delete finds no channel of the component, until a define announces it again |
| ComponentTheorems.DeletedNameStaysGone | vm/src/vm.cpp:393-414 | with names without slash, no channel the component could have, until a define of that name |
| PythonTheorems.PythonSees | bindings/python/ailoy/runtime.py:86-94 | in every run, what has come to a client for a call is a part of the answer that the VM sends, each reply once: what the generators of the Python client need |
| PythonTheorems.PythonEndToEnd | bindings/python/ailoy/runtime.py:130-148 | what these replies yield are the values of the operator's steps in order, and its error at the end; with nothing on the way and the VM idle, the answer of a call not dropped by a stop is complete and has come |
| ProtocolExample.SpellComesBack | vm/src/vm.cpp:273-315 | a run exists, from the VM's subscription on, in which a client's call of spell is answered and its iterator is finished with the letters |
| MailboxModel.Mailbox.Set | core/src/inproc_socket.cpp:22-32 | appends unless the mailbox holds 128 |
| MailboxModel.Mailbox.Get | core/src/inproc_socket.cpp:36-44 | takes the oldest, if any |
| MailboxModel.Monitor.TakeSignal | core/src/thread.cpp:5-15 | takes the oldest signal, if any |
| MailboxModel.Socket.Send | core/src/inproc_socket.cpp:92-99 | one message and one signal, or neither |
| MailboxModel.NetStep | core/src/inproc_socket.cpp:22-44 | every step of every thread keeps signals, senders and receivers in balance with the mailbox |
| MailboxModel.Wakeups | core/src/inproc_socket.cpp:92-101 | in every interleaving the balance is off by exactly the notifications before the monitor; never more than 128 messages; accepted is received followed by queued |
| MailboxModel.NoEmptyRecv | core/src/inproc_socket.cpp:101 | recv() for a signal finds a message |
| MailboxModel.NoLostWakeupIff | core/src/thread.cpp:19-34 | at rest the mailbox is empty exactly if no notification came before the monitor |
| MailboxModel.EarlyMessageIsStranded | broker/src/broker.cpp:64-67 | a message sent between attaching and setting the monitor stays unread |
| ByteBuffers.Put | core/src/value.cpp:46-65 | writes bytes at the position and nothing behind it |
| ByteBuffers.NumberStored | core/src/value.cpp:47-53 | a store keeps the number modulo its width |
| ByteBuffers.StoreIsLittleEndian | core/src/packet.cpp:132-146 | a store of 2, 4 or 8 bytes holds the number lowest byte first |
| NdArrayCodec.WriteNdArray | core/src/value.cpp:32-69 | the writer fills exactly the computed bytes |
| NdArrayCodec.ReadNdArray | core/src/value.cpp:71-98 | the reader's loop finds every field at its place |
| NdArrayCodec.NdLayout | core/src/value.cpp:45-65 | where everything lies: rank in 4 bytes, each dimension in 4, type code, bits, lanes in 2, byte count in 8, data |
| NdArrayCodec.NdRoundTrip | core/src/value.cpp:32-98 | the array comes back exactly when rank and dimensions are below 2^32 and the byte count below 2^64 |
| ValueCodec.ToNlohmannJson | core/include/value.hpp:407-458 | the loops of arrays and maps build the tree of the recursive definition; an ndarray becomes a binary of subtype 1801 |
| ValueCodec.FromNlohmannJson | core/src/value.cpp:112-160 | likewise back, with the error of an unknown binary subtype |
| ValueCodec.TreeRoundTrip | core/src/value.cpp:112-160 | a tree of any depth comes back with single-precision floats as doubles |
| ValueCodec.TreeRoundTripIff | core/src/value.cpp:112-160 | unchanged exactly when ndarrays fit and there is no such float |
| ValueCodec.CborRoundTrip | core/src/value.cpp:16-30 | through CBOR it comes back in canonical form |
| ValueCodec.CborRoundTripIff | core/src/value.cpp:162-177 | unchanged exactly when it was canonical: no such float, no non-negative signed integer |
| ValueCodec.CanonIsIdentityIff | core/src/value.cpp:137-145 | canonical trees are the fixed points, and every result is one |
| PacketCodec.DumpPacket | core/src/packet.cpp:103-151 | the writes fill the allocated buffer exactly when headers and body are there; what is missing stays zero |
| PacketCodec.DumpLayout | core/src/packet.cpp:103-151 | where everything lies: type, instruction if any, 2 bytes for the length of the headers, headers, 4 bytes for the length of the body, body |
| PacketCodec.HeaderOnlyAgrees | core/src/packet.cpp:153-189 | header-only loading agrees with full loading on type, instruction and headers |
| PacketCodec.PacketRoundTrip | core/src/packet.cpp:103-189 | within the size limits a packet comes back exactly when headers are not null and an instruction is there just for subscribe, unsubscribe and execute; a null body comes back null |
| PacketFrames.WireRoundTrip | core/include/packet.hpp:111-258 | what the templates build, dumped, loaded and read, is the packet sent |
| PacketFrames.FirstBytes | core/include/packet.hpp:11-28 | the first byte is 0, 1, 2, 3, 4, 16 or 17 by the type of the packet, the second 0 to 3 by the instruction |
| PacketFrames.BodyTells | core/include/packet.hpp:111-258 | the bodies carry status, out, reason, name and in under these names |
| PacketFrames.HeadersTell | broker/src/broker.cpp:76-78 | transaction, instruction, index and finish can be read without the body |
| StreamModes.Engine.Feed | vm/src/mlc_llm/mlc_llm_engine.cpp:303-334 | one token changes mode and buffer and sends a choice as the step function says |
| StreamModes.Engine.GetJsonStrIfValid | vm/src/mlc_llm/chat_template_engine.cpp:42-50 | the buffered tokens put together, without outer blanks, exactly if that is JSON |
| StreamModes.BufferOnlyInToolCall | vm/src/mlc_llm/mlc_llm_engine.cpp:303-317 | outside tool-call mode the token buffer is empty |
| StreamModes.StreamAppend | vm/src/mlc_llm/mlc_llm_engine.cpp:275-335 | it does not matter in how many pieces the tokens come |
| StreamModes.StreamIsOffline | vm/src/mlc_llm/mlc_llm_engine.cpp:298-335 | the machine sends what segmenting the whole token list gives |
| StreamModes.OneBlock | vm/src/mlc_llm/mlc_llm_engine.cpp:303-317 | a bracketed block among plain tokens sends, at its end marker, its text without outer blanks as a tool call if that is JSON, else the end token's finish reason if any; before it the plain tokens and the block's finish reasons, after it whatever is sent from the start |
| StreamModes.FinishesAreSent | vm/src/mlc_llm/mlc_llm_engine.cpp:298-335 | as long as no block is closed, every finish reason is sent on once, in order, whatever the tokens |
| StreamModes.OneThought | vm/src/mlc_llm/mlc_llm_engine.cpp:318-330 | what stands between the think tags is sent as reasoning unless it carries a finish reason, the tags are not sent, everything else is sent as it is |
| StreamModes.EmptyMarkers | vm/src/mlc_llm/chat_template_engine.hpp:12-32 | without markers, of everything after the first empty token only finish reasons are sent on |

## Left out

- CBOR and JSON text encoding, uuid generation and JSON validity: parameters (a lawful codec, fresh ids, a predicate).
- Floating-point rounding, NaN and infinities: floats are the reals they stand for.
- The JSON text form of values (`encoding_method_t::json`): library code, and it has no binary strings.
- Machine width of lengths in the splitter: no total exceeds the length of the text (`SplitText.RunningTotalIsDirect`).
- Timeouts, condition variables, the dialer with its waitlist, thread start-up and expired peers: waiting is a step that is not enabled yet; sockets start out attached.
- The mailbox limit in the protocol model: its runs are those in which every send succeeds; the limit itself is in `MailboxModel`.
- The order in which the broker takes signals: any non-empty mailbox may be next, which includes all orders of signals.
- Nodes other than the VM that subscribe, and VMs after the first, in the protocol model; what the broker does for them is in `BrokerModel`.
- A `listen()` of the Python client that times out although something has come: it is repeated.
- That `call()` of the Python client unpacks a list of one value, and gives None for none.
- The retry counter of the drain loop: leaving the loop is always possible, and the response to the VM's disconnect is not waited for.
- Malformed packets, the "Invalid header" and "Invalid body" returns: the dump_packet templates build neither.
- NdArrayCodec.ReadNdArray: requires input that holds all it announces; the source reads past the end otherwise.
- The texts of type and range errors, and of refused announcements, are abbreviated or parameters.
- Iteration order of unordered maps: operators, factories and methods are sequences of names in that order.
- Operators other than spell: in the protocol model they may return anything (`Opaque`), so the state of components does not appear there; the accumulator is on its own in `Operators`.
- Promises that wait for plain responses (`registerResolver`, `registerResponse`), the shared listener promise, and the lock of the asynchronous Python client: the replies to calls take the paths modelled here.
- Requests that run at the same time on one token machine: the source keeps one mode for all; the model follows one request, one token per callback.
- Input checks of the split operators and `_check_chunk_overlap`: the theorems hold for every overlap; separators must not be an empty list, as in the source.
- HTTP, vector stores, model download, tokenizers, chat templates, agents and command line: I/O and foreign calls.
