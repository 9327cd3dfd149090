# A verified model of the insolar ledger node's sequential core

This project models, in Dafny, the parts of the insolar node whose behaviour is
sequential and deterministic once I/O, goroutines and storage are abstracted, and proves
what that code promises:

- **Pulse routing and reply resolution** (`flow_bus`, `flow_dispatcher`, `flow_handler`):
  the dispatcher's current pulse, the `present`/`future` choice, the one-slot reply
  channel and the rule that turns a finished handler run into one (reply, error) pair;
  the handler's decimal `Pulse` metadata parse with Go's `ParseUint` results.
- **The light node's write controller** (`write_controller`): the open pulse, the
  closing flag and the lease count, with `CloseAndWait` split into the start of closing
  and its completion once every lease is back.
- **Ledger procedures** (`hot_data`, `get_code`): the decision trees of `HotData` and
  `GetCode` over abstract storage and bus results, each answering exactly once.
- **Logic-runner RPC** (`rpc`): panic recovery, the per-mode nonce of routed calls and
  saved children and delegates, the children-iterator paging loop and its registry,
  deactivation.
- **The contract preprocessor** (`preprocessor_ast`, `preprocessor_parse`,
  `preprocessor_names`, `preprocessor_text`): contract detection, the constructor and
  method signature rules, the proxy package name, import collection and the text
  builders of the generated wrapper and proxy.
- **Codecs** (`response_codec`, `der_points`, `base64`, `decimal`, `go_ints`): the
  one-byte type tag of message-router responses, the R and S integers of a DER
  `Ecdsa-Sig-Value` (section 2.2.3 of RFC 3279, ITU-T X.690), base 64 per section 4 of
  RFC 4648, decimal text and Go's fixed-width integers.
- **Small stateful contracts** (`gateway`, `wallet`, `node_update`, `hello_world`): the
  gateway switch, the wallet balance, the node-update mandate table (time is a
  parameter) and the greeting counter.
- **The docflow chaincode** (`docflow_com`, `docflow_err`, `docflow_user`,
  `docflow_funcs`, `participant`, `docflow_process`, `docflow_chaincode`): the response
  and error formatting, user-attribute reading, key/id conversion, the participant
  entity, function-name routing and the log-level switch, and the business handlers:
  process creation, history paging, attachment and version de-duplication, and the
  approval and finish rules of responses.

Storage calls, the bus and the Fabric shim are inputs and outputs of the modelled
operations: a read is a parameter holding its result, and a write is a returned value
(or a function parameter giving its result). Go panics are preconditions, except where
the source recovers them and except for the two places listed under "## Findings": there the
preprocessor's signature rules and `createAttachmentVersion`'s store step follow the
evidently intended reading, and the code as written is modelled beside it.

## Model

| member | source | states |
|---|---|---|
| FlowBus.ReplyChannel.constructor | insolar/flow/dispatcher/dispatcher.go:122-123 | a new reply channel is open, empty and has the requested buffer size |
| FlowBus.ReplyChannel.Send | insolar/flow/dispatcher/dispatcher.go:137-141 | a send is accepted exactly when the buffer has room, and then appends the reply |
| FlowBus.ReplyChannel.TryReceive | insolar/flow/dispatcher/dispatcher.go:137-141 | a non-blocking receive yields the oldest buffered reply, the zero reply on a closed drained channel, and nothing otherwise |
| FlowBus.ReplyChannel.Close | insolar/flow/handler/handler.go:62-64 | closing keeps the buffered replies and marks the channel closed |
| FlowBus.OutcomeReportsSomething | insolar/flow/dispatcher/dispatcher.go:136-150 | the caller's verdict is (nil, nil) only for an empty reply the handler sent; without a reply it always carries an error, the run's own error before "no reply from handler" |
| FlowBus.RunAndPoll | insolar/flow/dispatcher/dispatcher.go:121-150 | on a fresh channel of capacity 1 the handler's one reply is never lost, and polling once gives the verdict of the outcome rule |
| FlowDispatcher.HandleByPulse | insolar/flow/dispatcher/dispatcher.go:94-118 | the `future` handle is chosen exactly when the message's pulse is later than the current one |
| FlowDispatcher.HandleByPulseMonotone | insolar/flow/dispatcher/dispatcher.go:114-117 | moving the current pulse forward only moves messages from `future` to `present` |
| FlowDispatcher.Dispatcher.constructor | insolar/flow/dispatcher/dispatcher.go:50-59 | a new dispatcher starts at the first pulse number with no pulse signals |
| FlowDispatcher.Dispatcher.ChangePulse | insolar/flow/dispatcher/dispatcher.go:71-92 | the controller is signalled once and the new pulse is stored whatever its value |
| FlowDispatcher.Dispatcher.WrapBusHandle | insolar/flow/dispatcher/dispatcher.go:120-151 | the parcel is run by the handle its pulse selects, and the result is the outcome rule applied to that run |
| FlowDispatcher.Dispatcher.InnerSubscriber | insolar/flow/dispatcher/dispatcher.go:153-169 | the `present` handle is started and no messages and no error are returned |
| FlowDispatcher.Dispatcher.Process | insolar/flow/dispatcher/dispatcher.go:172-174 | no messages and no error |
| FlowHandler.MetadataGet | insolar/flow/handler/handler.go:109 | a present key reads its value and a missing key reads as "" |
| FlowHandler.PulseOfMetadataValue | insolar/flow/handler/handler.go:109-116 | the pulse read back is the 32-bit number written as decimal metadata, and 0 when the metadata is missing or empty |
| FlowHandler.Handler.constructor | insolar/flow/handler/handler.go:44-50 | a new handler has sent no pulse signals |
| FlowHandler.Handler.ChangePulse | insolar/flow/handler/handler.go:53-55 | only the controller is signalled; no pulse is recorded |
| FlowHandler.Handler.WrapBusHandle | insolar/flow/handler/handler.go:57-83 | every parcel is run by the `present` handle, the channel has capacity 1 and ends closed, and the result is the outcome rule |
| FlowHandler.Handler.InnerSubscriber | insolar/flow/handler/handler.go:85-100 | no messages and no error |
| FlowHandler.Handler.Process | insolar/flow/handler/handler.go:102-149 | the handling runs under the pulse `ParseUint(…, 10, 32)` gives for the "Pulse" metadata, parse errors ignored, and nil is returned |
| WriteController.Controller.constructor | ledger/light/hot/writecontroller_test.go:117-125 | a new controller has opened no pulse and holds no leases |
| WriteController.Controller.Open | ledger/light/hot/writecontroller_test.go:31-67 | opening succeeds exactly for the first pulse, the pulse already open, or a pulse after the closed one, and fails with ErrWriteClosed otherwise; the open pulse never moves backwards |
| WriteController.Controller.Begin | ledger/light/hot/writecontroller_test.go:114-193 | a lease is granted exactly while the pulse is open and not closing, and then adds a fresh lease |
| WriteController.Controller.Done | ledger/light/hot/writecontroller_test.go:150-156 | releasing a lease removes just that lease, so releasing twice changes nothing more |
| WriteController.Controller.BeginClose | ledger/light/hot/writecontroller_test.go:69-112 | closing starts exactly when the pulse is open, after which no lease is granted |
| WriteController.Controller.FinishClose | ledger/light/hot/writecontroller_test.go:161-192 | closing completes only once every lease is released |
| WriteController.Controller.CloseAndWait | ledger/light/hot/writecontroller_test.go:69-112 | closing succeeds exactly for the open pulse and fails with ErrWriteClosed for a second close or another pulse, at once and with the leases untouched even while some are outstanding |
| WriteController.OpenScenario | ledger/light/hot/writecontroller_test.go:34-53 | opening pulse 1 succeeds, and opening it again succeeds |
| WriteController.OpenPreviousScenario | ledger/light/hot/writecontroller_test.go:55-66 | after pulse 2 is opened, opening pulse 1 fails with ErrWriteClosed |
| WriteController.CloseScenario | ledger/light/hot/writecontroller_test.go:72-111 | the first close succeeds; a second close, and a close of pulse 1 or 3 while 2 is open, fail with ErrWriteClosed |
| WriteController.CloseOtherWhileLeasedScenario | ledger/light/hot/writecontroller_test.go:96-110 | closing pulse 1 or 3 while 2 is open fails with ErrWriteClosed even when a lease on 2 is held, and the lease stays held |
| WriteController.BeginRefusedScenario | ledger/light/hot/writecontroller_test.go:117-140 | `Begin` on a pulse never opened, or on a closed one, fails |
| WriteController.DrainScenario | ledger/light/hot/writecontroller_test.go:142-192 | any number of leases are granted; once closing starts a late `Begin` fails; closing completes after every lease is released |
| WriteController.MonotoneScenario | ledger/light/hot/writecontroller_test.go:55-66 | after pulse 1 is closed and pulse 2 opened, neither `Begin(1)` nor `Open(1)` succeeds |
| HotData.Abandoned | ledger/light/proc/hot_data.go:85-93 | at most one notified object per pending context |
| HotData.ContextEvents | ledger/light/proc/hot_data.go:86-93 | one context write per pending context |
| HotData.BucketEvents | ledger/light/proc/hot_data.go:114-137 | at most one bucket write per hot index |
| HotData.StoreContexts | ledger/light/proc/hot_data.go:85-93 | the pending-context loop stores every context as inactive and collects the objects whose context was inactive |
| HotData.StoreBuckets | ledger/light/proc/hot_data.go:114-137 | the hot-index loop stores a bucket for each index that decodes and skips the others |
| HotData.Process | ledger/light/proc/hot_data.go:66-149 | the calls `process` makes and its error: a refused drop (other than an already-stored one) stops with the wrapped error; otherwise contexts, buckets, jet update, jet release, the OK reply and the unlock, in that order |
| HotData.Proceed | ledger/light/proc/hot_data.go:58-64 | `process`, then an error reply exactly when it failed, and its error returned |
| HotData.ContextEventsAppend | ledger/light/proc/hot_data.go:86-93 | one more pending context adds one inactive context write, and one notified object when it was inactive |
| HotData.BucketEventsAppend | ledger/light/proc/hot_data.go:114-137 | one more hot index adds a bucket write exactly when it decodes |
| HotData.RepliesInConcat | ledger/light/proc/hot_data.go:58-64 | replies in a concatenated log add up |
| HotData.NoRepliesInStorageCalls | ledger/light/proc/hot_data.go:85-137 | the context and bucket writes send no reply |
| HotData.ExactlyOneReply | ledger/light/proc/hot_data.go:58-149 | exactly one reply is sent: the wrapped drop error when the drop is refused, otherwise OK, after the jet update and release and before the unlock |
| HotData.AbandonedExactlyInactive | ledger/light/proc/hot_data.go:86-90 | an object is notified exactly when some pending context of it was inactive |
| HotData.ContextsStoredInactive | ledger/light/proc/hot_data.go:91-92 | the i-th context write stores the i-th pending context, marked inactive |
| HotData.BucketsAreDecodedIndexes | ledger/light/proc/hot_data.go:114-131 | every bucket belongs to an index that decodes, with the message's jet and pulse and empty result and request lists, and every such index gets one |
| GetCode.CodeReplyCases | ledger/light/proc/get_code.go:59-106 | every reply holds exactly one of a code reply and an error; a local code record answers with its blob and machine type exactly when the blob loads; a missing record is answered by the heavy node, passed on only when it is a code reply; a non-code record gives the wrapped invalid-reference error |
| GetCode.LocalRecordIgnoresHeavy | ledger/light/proc/get_code.go:61-87 | a record found locally (or a lookup error other than not-found) is answered without consulting the heavy node or the bus |
| GetCode.Proceed | ledger/light/proc/get_code.go:54-57 | exactly one reply is put on the channel and nil is returned |
| GoErrors.Wrap | ledger/light/proc/get_code.go:65 | a wrapped error's text is the message, ": ", then the cause's text |
| GoInts.AddUint64 | logicrunner/common/rpc.go:100 | `uint64` addition wraps modulo 2^64 |
| GoInts.IncInt64 | logicrunner/builtin/contract/helloworld/helloworld.go:37 | the 64-bit `int` increment is the `int64` congruent to `a + 1` modulo 2^64 |
| GoInts.AddInt64 | application/contract/nodeupdate/nodeupdate.go:62 | `int64` addition is the `int64` congruent to the exact sum modulo 2^64 |
| GoInts.AddByte | platformpolicy/xcrypto/internal/sign/wrapper.go:97-100 | `byte` addition is taken modulo 256 |
| Decimal.DigitChar | application/contract/fabric/chaincode/src/docflow/platform/com/error.go:68 | the character printed for a digit is a digit with that value |
| Decimal.NatToString | application/contract/fabric/chaincode/src/docflow/platform/com/error.go:68 | the decimal text of a number is digits only, without a leading zero |
| Decimal.IntToString | application/contract/fabric/chaincode/src/docflow/platform/com/response.go:79 | `strconv.Itoa`: a leading minus sign exactly for a negative number, then non-empty digits without a leading zero whose value is the number's magnitude |
| Decimal.DecimalValueAppend | insolar/flow/handler/handler.go:111 | appending a digit multiplies the value by ten and adds the digit |
| Decimal.DecimalRoundTrip | application/contract/fabric/chaincode/src/docflow/platform/com/error.go:68 | reading back the printed decimal text of a number gives the number |
| Decimal.ScanDecimal | insolar/flow/handler/handler.go:111 | a syntax error yields 0 and a range error yields 2^32-1, as `ParseUint` returns them |
| Decimal.ParseUint32 | insolar/flow/handler/handler.go:111 | the empty text is a syntax error with value 0 |
| Decimal.ScanDecimalSound | insolar/flow/handler/handler.go:111 | a scan without error read only digits and its value fits in 32 bits |
| Decimal.ScanDecimalComplete | insolar/flow/handler/handler.go:111 | digits whose value fits are scanned to exactly that value |
| Decimal.ParseUint32Succeeds | insolar/flow/handler/handler.go:111 | parsing succeeds exactly for non-empty all-digit text whose value fits in 32 bits, and then yields that value |
| Decimal.ParseUint32RoundTrip | insolar/flow/handler/handler.go:111 | any 32-bit number printed in decimal parses back to itself |
| NodeUpdate.NodeUpdate.constructor | application/contract/nodeupdate/nodeupdate.go:82-88 | the limit and node count are stored and no mandate is held |
| NodeUpdate.NodeUpdate.ReleaseMandate | application/contract/nodeupdate/nodeupdate.go:49-53 | only the caller's mandate is removed |
| NodeUpdate.NodeUpdate.CheckMandate | application/contract/nodeupdate/nodeupdate.go:56-69 | the answer is true exactly for a positive start time that has not lapsed (with `int64` wrap-around), and only a lapsed mandate is deleted |
| NodeUpdate.NodeUpdate.Current | application/contract/nodeupdate/nodeupdate.go:74-78 | the mandates kept are exactly those not lapsed, with their start times |
| NodeUpdate.NodeUpdate.Cleanup | application/contract/nodeupdate/nodeupdate.go:72-79 | whatever order the map is visited in, exactly the lapsed mandates are deleted |
| HelloWorld.Greeting | logicrunner/builtin/contract/helloworld/helloworld.go:38 | the greeting is "Hello ", the name, then "' world" |
| HelloWorld.HelloWorld.constructor | logicrunner/builtin/contract/helloworld/helloworld.go:42-46 | nobody has been greeted |
| HelloWorld.HelloWorld.Greet | logicrunner/builtin/contract/helloworld/helloworld.go:36-39 | the counter goes up by one (64-bit) and the greeting is returned without error |
| HelloWorld.GreetTimes | logicrunner/builtin/contract/helloworld/helloworld.go:36-46 | n greetings on a new contract count n and return each name's greeting |
| Wallet.SafeSub | application/contract/wallet/wallet.go:42-45 | the `safemath.Sub` that `Transfer` calls, whose package is not part of this model: assumed to give the difference, or zero with an "underflow" error when the amount exceeds the balance |
| Wallet.SafeAdd | application/contract/wallet/wallet.go:54-57 | the `safemath.Add` that `Accept` calls, whose package is not part of this model: assumed to give the sum, or zero with an "overflow" error when it exceeds 64 bits |
| Wallet.Wallet.constructor | application/contract/wallet/wallet.go:67-71 | a new wallet holds the given balance |
| Wallet.Wallet.GetBalance | application/contract/wallet/wallet.go:62-64 | the balance, without error |
| Wallet.Wallet.Accept | application/contract/wallet/wallet.go:53-59 | the amount is added; on overflow the error is reported and the balance is left at zero |
| Wallet.Wallet.Transfer | application/contract/wallet/wallet.go:35-50 | an unresolved target or a too small balance fails with nothing changed; otherwise the sender is debited and the target's `Accept` result is returned, its failure not undoing the debit |
| Wallet.TransferConserves | application/contract/wallet/wallet.go:35-59 | a transfer between two wallets succeeds exactly when the balance covers the amount and the target does not overflow, and then keeps the total |
| Wallet.TransferIntoFullWallet | application/contract/wallet/wallet.go:46-57 | a transfer into a full wallet fails after debiting the sender, and the target's balance is reset to zero |
| Gateway.KindOfIsBijective | network/gateway/base.go:71-88 | the five known states build five distinct gateway kinds, one for each kind |
| Gateway.Gatewayer.constructor | network/gateway/base.go:63-68 | the network service starts with the given gateway and has run none |
| Gateway.Base.constructor | network/gateway/base.go:63-68 | a base has built no gateway yet |
| Gateway.Base.NewGateway | network/gateway/base.go:71-88 | a known state builds its own gateway kind and stores it as the current one; an unknown state panics |
| Gateway.Base.OnPulse | network/gateway/base.go:90-96 | a bootstrapped node switches the network to a new complete gateway and runs it; otherwise nothing changes; no error |
| Gateway.Base.Auther | network/gateway/base.go:99-104 | the current gateway is returned, and it must be an authorising one |
| ResponseCodec.GetEmptyResponse | messagerouter/response/base.go:40-49 | only the common tag is accepted; tag 0 and other tags give their two errors |
| ResponseCodec.Framed | messagerouter/response/base.go:51-61 | the frame is the tag byte followed by the payload |
| ResponseCodec.UnframeFramed | messagerouter/response/base.go:51-78 | a framed response decodes back to its payload when its tag is the common one, and gives the tag's error otherwise |
| ResponseCodec.FramedUnframe | messagerouter/response/base.go:64-78 | decoding succeeds exactly on a common-tag frame, which re-frames to the same bytes |
| ResponseCodec.Buffer.constructor | messagerouter/response/base.go:52 | an empty buffer |
| ResponseCodec.Buffer.Write | messagerouter/response/base.go:53 | writes append |
| ResponseCodec.Buffer.ReadByte | messagerouter/response/base.go:65-66 | a one-byte read takes the first byte, or reports the end of input |
| ResponseCodec.Serialize | messagerouter/response/base.go:51-61 | the buffer holds the tag byte followed by what the gob encoder wrote, and the encoder's error is returned with it |
| ResponseCodec.Deserialize | messagerouter/response/base.go:64-78 | an empty input is "too short"; a refused tag is reported after reading one byte; a common tag hands the rest to the decoder and returns the response together with the decoder's error |
| DerPoints.BigEndianBound | platformpolicy/xcrypto/internal/sign/wrapper.go:102-103 | k bytes read big-endian give a number below 256^k, which is positive |
| DerPoints.BigEndianLeadingZero | platformpolicy/xcrypto/internal/sign/wrapper.go:102-103 | a leading zero byte does not change the number |
| DerPoints.PointsFromDER | platformpolicy/xcrypto/internal/sign/wrapper.go:88-106 | an unmarshal failure gives zero points and the wrapped error; otherwise no error |
| DerPoints.PointsOfSigValue | platformpolicy/xcrypto/internal/sign/wrapper.go:96-103 | a well-formed two-integer content gives back R and S |
| DerPoints.WrappedOffsetReadsFromStart | platformpolicy/xcrypto/internal/sign/wrapper.go:97-100 | the length byte is unchecked: at 252 the byte offset wraps and S is read from the start of the content |
| DerPoints.Verify | platformpolicy/xcrypto/internal/sign/wrapper.go:58-82 | a nil signature is refused, and no error ever comes with a positive verdict |
| DerPoints.VerifyDispatch | platformpolicy/xcrypto/internal/sign/wrapper.go:65-81 | only "DER" goes through `PointsFromDER`, whose unmarshal error comes back wrapped twice; any other type uses the two-integer deserialiser, whose error is wrapped |
| Rpc.RecoverKeepsBoth | logicrunner/common/rpc.go:47-59 | a recovered panic becomes the error's text; a prior error's text is kept in front of it, separated by a space unless the panic value is a string |
| Rpc.ModeState.constructor | logicrunner/common/rpc.go:100 | a mode state starts with nonce 0 and no deactivation |
| Rpc.ModeState.RouteCall | logicrunner/common/rpc.go:86-132 | refused from an immutable execution with the nonce untouched; otherwise the nonce is incremented (64-bit) and carried by the request; a non-waiting call returns no result; a waiting call whose reply is not a method result reports the recovered type-assertion panic |
| Rpc.ModeState.Save | logicrunner/common/rpc.go:134-197 | save-as-child and save-as-delegate both increment the nonce, send a constructor request based on the target with the right call type, and return the constructor call's reference and error |
| Rpc.ModeState.DeactivateObject | logicrunner/common/rpc.go:296-303 | marks the mode state for deactivation, leaves the nonce alone, never fails |
| Rpc.TwoRoutedCalls | logicrunner/common/rpc.go:100-106 | two calls in a row from one mode state carry consecutive nonces |
| Rpc.ChildIterator.constructor | logicrunner/common/rpc.go:218-219 | an iterator over the children `GetChildren` gave |
| Rpc.ChildIterator.Next | logicrunner/common/rpc.go:245 | `Next` yields the first remaining child and drops it |
| Rpc.FillPageSound | logicrunner/common/rpc.go:243-267 | a page holds at most 1000 children, only live children with the requested prototype taken from the iterator, and ends without error only when full or exhausted |
| Rpc.FillPageComplete | logicrunner/common/rpc.go:243-267 | the children left are a suffix of the iterator's, and the page is exactly the live children with the requested prototype among those consumed, in order |
| Rpc.FillFrom | logicrunner/common/rpc.go:243-267 | the paging loop advances the iterator exactly as the page specification says and reports whether children remain |
| Rpc.IteratorRegistry.constructor | logicrunner/common/rpc.go:194 | the iterator table starts empty |
| Rpc.IteratorRegistry.GetObjChildrenIterator | logicrunner/common/rpc.go:199-276 | a known ID continues its iterator; otherwise a children or UUID failure is reported wrapped with the table unchanged, or the children are registered under the new ID unless it is taken; one page is filled, and an exhausted iterator is removed after a page without error; no other iterator moves |
| PreprocessorAst.TypeNameStripsOneStar | logicrunner/preprocessor/main.go:387-392 | `typeName` removes exactly one leading pointer star: `**T` is named `*T`, `*T` and `T` are both named `T` |
| PreprocessorAst.NumFields | logicrunner/preprocessor/main.go:171 | a result list counts at least one field per entry and is zero only when empty |
| PreprocessorAst.Expand | logicrunner/preprocessor/main.go:171 | the per-field type list has exactly `NumFields` entries |
| PreprocessorAst.FieldTypeAtIsExpanded | logicrunner/preprocessor/main.go:193 | walking the grouped entries finds the same type as indexing the per-field list |
| PreprocessorAst.UngroupedFieldTypeAt | logicrunner/preprocessor/main.go:175-193 | without grouped entries, entry index and field index coincide |
| PreprocessorParse.Quote | logicrunner/preprocessor/main.go:172 | `%q` of a name is the name between double quotes |
| PreprocessorParse.EmbedsBaseContract | logicrunner/preprocessor/main.go:477-491 | the field search succeeds iff some unnamed field is the selector `foundation.BaseContract` |
| PreprocessorParse.ContractTypeSpecIff | logicrunner/preprocessor/main.go:469-494 | a type is a contract iff it is a struct embedding `foundation.BaseContract`; an empty struct never is |
| PreprocessorParse.ScanTypesSticky | logicrunner/preprocessor/main.go:106-125 | the type scan stops at its first error: later specs change nothing |
| PreprocessorParse.ContractIsUnique | logicrunner/preprocessor/main.go:127-138 | the types parse without error iff the file has at most one contract type; the recorded contract is that type's name, and the only error is "more than one contract in a file" |
| PreprocessorParse.OtherTypesRecorded | logicrunner/preprocessor/main.go:134-135 | every non-contract type of a cleanly scanned file is recorded under its name |
| PreprocessorParse.AppendAt | logicrunner/preprocessor/main.go:180-181 | appending under a key extends that key's list (empty when missing) and leaves every other key alone |
| PreprocessorParse.ResultTypeName | logicrunner/preprocessor/main.go:175-193 | the type name of the k-th declared result, counting each name of a grouped entry |
| PreprocessorParse.AsWrittenAgreesWhenUngrouped | logicrunner/preprocessor/main.go:175-193 | indexing the entry list as written agrees with the declared-result reading when no results are grouped |
| PreprocessorParse.MethodGroupedResultsPanic | logicrunner/preprocessor/main.go:193 | for `(a, b int, err error)` the index `NumFields()-1` is past the entry list, though the last declared result is `error` |
| PreprocessorParse.ConstructorGroupedResultsPanic | logicrunner/preprocessor/main.go:175 | for `(c, err error)` the index 1 is past the single entry, though the second declared result is `error` |
| PreprocessorParse.GroupedResultsIndexPastEntries | logicrunner/preprocessor/main.go:175-193 | for every result list with an entry grouping two or more names, the index of the last declared result, and index 1 when two are declared, is past the entry list (the as-written half of the first finding) |
| PreprocessorParse.ScanFuncsSticky | logicrunner/preprocessor/main.go:140-161 | the function scan stops at its first error: later declarations change nothing |
| PreprocessorParse.ConstructorRules | logicrunner/preprocessor/main.go:163-183 | following the corrected reading of the first finding (grouped results are counted, not a panic): a `New…` function is accepted iff it returns exactly two values, the second `error`, and is then appended under its first result's type name; other names are ignored |
| PreprocessorParse.MethodRules | logicrunner/preprocessor/main.go:185-205 | following the corrected reading of the first finding (grouped results are counted, not a panic): a method is accepted iff it has a result and its last result is `error`, and is then appended under its receiver's type name |
| PreprocessorParse.UnexportedIgnored | logicrunner/preprocessor/main.go:144-147 | unexported functions and non-function declarations never fail and are never filed |
| PreprocessorParse.ParseFileNeedsOneContract | logicrunner/preprocessor/main.go:72-104 | two contract types give ": more than one contract in a file"; none gives "Only one smart contract must exist"; a parsed file has exactly one contract |
| PreprocessorParse.ParsedFile.constructor | logicrunner/preprocessor/main.go:72-90 | a parsed file starts with its name, package, declarations and imports and empty tables |
| PreprocessorParse.ParsedFile.ParseTypeSpecInto | logicrunner/preprocessor/main.go:127-138 | one type spec updates the contract or the types table as the scan specification says |
| PreprocessorParse.ParsedFile.ParseTypeSpecsInto | logicrunner/preprocessor/main.go:113-121 | the specs of one declaration continue the type scan from where it stood |
| PreprocessorParse.ParsedFile.ParseTypes | logicrunner/preprocessor/main.go:106-125 | the fields end as the type scan over all type declarations specifies, with its error |
| PreprocessorParse.ParsedFile.ParseFunctionsAndMethods | logicrunner/preprocessor/main.go:140-161 | the methods and constructors tables end as the function scan specifies, with its error; the scan follows the corrected reading of the first finding |
| PreprocessorParse.TypeSpecsSplit | logicrunner/preprocessor/main.go:106-125 | the type specs of a file are those of its first part followed by those of the rest |
| PreprocessorParse.ParseFile | logicrunner/preprocessor/main.go:72-104 | no parsed file exactly when there is an error; the error is the outcome's; a success holds the scans' tables and the one contract; grouped results follow the corrected reading of the first finding |
| PreprocessorParse.CheckMachineType | logicrunner/preprocessor/main.go:232-238 | only the builtin and Go-plugin machine types are accepted, others give "Unsupported machine type" |
| PreprocessorNames.RunStartIsRun | logicrunner/preprocessor/main.go:210 | the `[^/]+` group before a slash is the whole run of non-slash characters, starting at the beginning or right after a slash |
| PreprocessorNames.ValidRest | logicrunner/preprocessor/main.go:210 | the file-stem group is non-empty and holds no slash |
| PreprocessorNames.FindFromSound | logicrunner/preprocessor/main.go:210 | whatever the leftmost-match search finds has the pattern's shape |
| PreprocessorNames.ValidRestShape | logicrunner/preprocessor/main.go:210 | a matching rest is the stem group, one character other than a newline, then `go` or `insgoc` |
| PreprocessorNames.MatchFileNameSound | logicrunner/preprocessor/main.go:210 | a match of the file-name pattern is some prefix, the directory group, a slash, the stem group, one character and the ending |
| PreprocessorNames.FindFromNext | logicrunner/preprocessor/main.go:210 | the search passes over a slash at which no match ends |
| PreprocessorNames.FindFromHere | logicrunner/preprocessor/main.go:210 | the search stops at the first slash where a match ends |
| PreprocessorNames.MatchFileNameComplete | logicrunner/preprocessor/main.go:210 | every name `…/dir/file.go` or `…/dir/file.insgoc` matches, with groups `dir` and `file` |
| PreprocessorNames.FindFromSkips | logicrunner/preprocessor/main.go:210 | the search reaches the first slash where a match ends, over any slashes where none does |
| PreprocessorNames.NoMatchBefore | logicrunner/preprocessor/main.go:210 | no earlier slash ends a match when the tail after the stem slash is long enough |
| PreprocessorNames.UnescapedDotMatchesAnyCharacter | logicrunner/preprocessor/main.go:210 | the unescaped dot lets `a/bxgo` match, with groups `a` and `b` |
| PreprocessorNames.NoSlashNoMatch | logicrunner/preprocessor/main.go:210-213 | a name without a slash never matches |
| PreprocessorNames.ProxyPackageNameRule | logicrunner/preprocessor/main.go:209-225 | the package name unless it is `main`; then the file stem; if that is `main` too, the directory |
| PreprocessorNames.ProxyPackageNameNeedsDirectory | logicrunner/preprocessor/main.go:210-213 | a file name without a directory gives "couldn't match filename without extension and path" |
| PreprocessorNames.TrimLeft | logicrunner/preprocessor/main.go:518 | trimming removes exactly the leading run of the character |
| PreprocessorNames.TrimRight | logicrunner/preprocessor/main.go:518 | trimming removes exactly the trailing run of the character |
| PreprocessorNames.AfterLastSlash | logicrunner/preprocessor/main.go:535 | the last path element is a slash-free suffix, preceded by a slash unless it is the whole path |
| PreprocessorNames.Base | logicrunner/preprocessor/main.go:535 | `filepath.Base` is never empty |
| PreprocessorNames.BaseOfJoin | logicrunner/preprocessor/main.go:534-535 | the base of `dir/name` is `name`, so an unaliased import is referred to by its last path element |
| PreprocessorNames.IndexOfDot | logicrunner/preprocessor/main.go:519 | the first dot: no dot comes before it |
| PreprocessorNames.PackageOf | logicrunner/preprocessor/main.go:517-523 | the package qualifier of a type holds no dot |
| PreprocessorNames.MatchImportIsFirst | logicrunner/preprocessor/main.go:525-542 | an import is found iff some import has that alias, and it is the first such import's line |
| PreprocessorNames.ErrorImport | logicrunner/preprocessor/main.go:510-514 | an `error` parameter adds only the foundation import |
| PreprocessorNames.AllTrue | logicrunner/preprocessor/main.go:512 | the imports map holds `true` for exactly the keys set |
| PreprocessorNames.QualifiedTypeImported | logicrunner/preprocessor/main.go:516-543 | a package-qualified parameter type brings in the first file import of that package |
| PreprocessorNames.PlainParamsNeedNothing | logicrunner/preprocessor/main.go:505-544 | without `error` and package-qualified types, nothing is added |
| PreprocessorNames.FindImport | logicrunner/preprocessor/main.go:525-542 | the import loop finds exactly what the first-match specification says |
| PreprocessorNames.MergeAllTrue | logicrunner/preprocessor/main.go:505-544 | setting two key sets one after the other sets their union |
| PreprocessorNames.AddErrorImport | logicrunner/preprocessor/main.go:510-514 | the first loop adds the foundation import when a parameter is `error` |
| PreprocessorNames.AddParamImports | logicrunner/preprocessor/main.go:516-543 | the second loop adds the import each qualified parameter type refers to |
| PreprocessorNames.ExtendImportsMap | logicrunner/preprocessor/main.go:505-544 | the map gains exactly the keys the field list needs, each `true` |
| PreprocessorNames.ExtendWithSignature | logicrunner/preprocessor/main.go:400-411 | one signature adds its parameters' imports, and its results' imports unless generating the wrapper |
| PreprocessorNames.ExtendWithFuncs | logicrunner/preprocessor/main.go:400-411 | the loop adds each signature's imports in turn |
| PreprocessorNames.GenerateImports | logicrunner/preprocessor/main.go:394-414 | proxyctx, the core package unless generating the wrapper, and the imports the contract's methods and constructors need |
| PreprocessorNames.BaseImportsMap | logicrunner/preprocessor/main.go:395-399 | the map starts with proxyctx, and the core package only for the proxy |
| PreprocessorNames.AllTrueUnion | logicrunner/preprocessor/main.go:394-414 | two key sets set one after the other give their union |
| PreprocessorText.Numbered | logicrunner/preprocessor/main.go:449-451 | `n` names, the i-th being the base name followed by the decimal `i` |
| PreprocessorText.CommaAppendJoins | logicrunner/preprocessor/main.go:436-441 | `commaAppend` of a joined list and a non-empty item is the list with that item joined |
| PreprocessorText.NumberedVarsI | logicrunner/preprocessor/main.go:443-453 | "" for 0, otherwise `name0, name1, …` up to `n-1` |
| PreprocessorText.NumberedVars | logicrunner/preprocessor/main.go:429-434 | one numbered variable per declared field |
| PreprocessorText.ResultsWithFinal | logicrunner/preprocessor/main.go:362-363 | all results but the last, numbered, then `err` or `nil`; with a single result only that value |
| PreprocessorText.TypeIndexes | logicrunner/preprocessor/main.go:455-467 | ascending positions of exactly the entries whose type text is `t` |
| PreprocessorText.ZeroDeclText | logicrunner/preprocessor/main.go:554-560 | one zero value is declared with its type (`error` becomes `*foundation.Error`) and its address stored |
| PreprocessorText.GenerateZeroListOfTypes | logicrunner/preprocessor/main.go:546-564 | an empty slice for no fields, else an array of the list's size and one zero value per entry |
| PreprocessorText.AppendZeroDecls | logicrunner/preprocessor/main.go:553-561 | the loop appends the entries' zero values in order |
| PreprocessorText.ZeroDeclsPrefix | logicrunner/preprocessor/main.go:553-561 | the declarations of earlier entries come first |
| PreprocessorText.FieldTexts | logicrunner/preprocessor/main.go:571-579 | one text per entry: its first name if names are wanted, then its type |
| PreprocessorText.GenFieldList | logicrunner/preprocessor/main.go:566-581 | the entries' texts separated by ", "; naming needs every entry named |
| PreprocessorText.GroupedParametersLoseNames | logicrunner/preprocessor/main.go:576 | only the first name of a grouped entry is written: `a, b int` becomes `a int` |
| PreprocessorText.IsImmutable | logicrunner/preprocessor/main.go:646-656 | immutable iff some doc-comment line is exactly `//ins:immutable` |
| Base64.CharValue | application/contract/fabric/chaincode/src/docflow/platform/funcs/encryption.go:29 | every alphabet character has a six-bit value that encodes back to it |
| Base64.CharRoundTrip | application/contract/fabric/chaincode/src/docflow/platform/funcs/encryption.go:29-38 | a six-bit value encodes to an alphabet character that decodes back to it |
| Base64.Encode | application/contract/fabric/chaincode/src/docflow/platform/funcs/encryption.go:38 | padded encoding gives four characters per started group of three bytes |
| Base64.StripNewlines | application/contract/fabric/chaincode/src/docflow/platform/funcs/encryption.go:29 | the decoder's view of the text holds no CR or LF |
| Base64.FirstGroup | application/contract/fabric/chaincode/src/docflow/platform/funcs/encryption.go:29 | decoding only goes on after a full group of four characters giving three bytes |
| Base64.GroupRoundTrip | application/contract/fabric/chaincode/src/docflow/platform/funcs/encryption.go:29-38 | the four six-bit values of a three-byte group give its bytes back |
| Base64.EncodeCharacters | application/contract/fabric/chaincode/src/docflow/platform/funcs/encryption.go:38 | encoded text uses only alphabet characters and `=` |
| Base64.DecodeQuad | application/contract/fabric/chaincode/src/docflow/platform/funcs/encryption.go:29 | one full group decodes to its three bytes and decoding goes on with what follows |
| Base64.DecodeLastTwo | application/contract/fabric/chaincode/src/docflow/platform/funcs/encryption.go:29-38 | a last group of two bytes with one `=` decodes back |
| Base64.DecodeLastOne | application/contract/fabric/chaincode/src/docflow/platform/funcs/encryption.go:29-38 | a last group of one byte with two `=` decodes back |
| Base64.DecodeGroupsEncode | application/contract/fabric/chaincode/src/docflow/platform/funcs/encryption.go:29-38 | decoding encoded bytes gives them back, with success |
| Base64.DecodeEncode | application/contract/fabric/chaincode/src/docflow/platform/funcs/encryption.go:29-38 | `DecodeString(EncodeToString(b))` is `b`, with success |
| Base64.LineBreaksIgnored | application/contract/fabric/chaincode/src/docflow/platform/funcs/encryption.go:29 | a CR LF anywhere in the text does not change what it decodes to |
| Base64.DecodeGroupsAfterEncoding | application/contract/fabric/chaincode/src/docflow/platform/funcs/encryption.go:29 | decoding runs on past the unpadded encoding of whole groups into what follows |
| Base64.CorruptTailKeepsPrefix | application/contract/fabric/chaincode/src/docflow/platform/funcs/encryption.go:29-32 | a corrupt character after whole groups fails, keeping the bytes decoded before it |
| Base64.StripPrefix | application/contract/fabric/chaincode/src/docflow/platform/funcs/encryption.go:29 | text without line breaks passes through stripping unchanged |
| DocflowCom.CCError | application/contract/fabric/chaincode/src/docflow/platform/com/error.go:54-60 | a chaincode error's text is its name |
| DocflowCom.ErrorMessageResponse | application/contract/fabric/chaincode/src/docflow/platform/com/response.go:74-81 | an error response has status 500 whatever the code, so it is a failure, and carries no payload |
| DocflowCom.SuccessMessageResponse | application/contract/fabric/chaincode/src/docflow/platform/com/response.go:83-90 | status 200 with the message, not a failure |
| DocflowCom.SuccessPayloadResponse | application/contract/fabric/chaincode/src/docflow/platform/com/response.go:92-105 | status 200 even when marshalling fails; the payload is the JSON, or empty on a marshalling error |
| DocflowCom.LeadingDigits | application/contract/fabric/chaincode/src/docflow/platform/com/response.go:79 | the longest run of decimal digits at the front of a text |
| DocflowCom.ErrorCodeReadBack | application/contract/fabric/chaincode/src/docflow/platform/com/response.go:79 | the code of an error response can be read back from its message, whatever the error and message |
| DocflowCom.ErrorMessageEndsWith | application/contract/fabric/chaincode/src/docflow/platform/com/response.go:79 | an error response's message ends with ". Message: " and the message given |
| DocflowCom.EntriesPrefix | application/contract/fabric/chaincode/src/docflow/platform/com/error.go:201-209 | the entries come in list order |
| DocflowCom.ArrayTextShape | application/contract/fabric/chaincode/src/docflow/platform/com/error.go:201-209 | an empty list prints as "[]"; otherwise the first entry, at index 0, comes right after the bracket |
| DocflowCom.ConcatArrStr | application/contract/fabric/chaincode/src/docflow/platform/com/error.go:201-209 | the loop builds "[" then "Index i, Value e;" per element, then "]" |
| DocflowCom.PathTextConcat | application/contract/fabric/chaincode/src/docflow/platform/com/response.go:65-67 | the text of a joined path is the texts of its parts joined |
| DocflowCom.GetPath | application/contract/fabric/chaincode/src/docflow/platform/com/response.go:58-72 | "" for a nil list, otherwise each name after a slash, between " '" and "': " |
| DocflowCom.FuncPath.constructor | application/contract/fabric/chaincode/src/docflow/platform/com/response.go:40-41 | the global call path starts empty |
| DocflowCom.FuncPath.PushBack | application/contract/fabric/chaincode/src/docflow/platform/funcs/encryption.go:26 | the name goes at the end and its position is the handle |
| DocflowCom.FuncPath.Remove | application/contract/fabric/chaincode/src/docflow/platform/funcs/encryption.go:27 | the element at the handle goes and the others keep their order |
| DocflowCom.ErrorConstructors | application/contract/fabric/chaincode/src/docflow/platform/com/error.go:24-199 | the argument, unmarshal, attribute, decode and array-parse constructors fail with status 500 and their own codes (510, 511, 512, 530, 600, 601, 591, 640) in the text; the array-parse error reuses the name "NoSuchCaseOfEntityError" under code 640 |
| DocflowCom.MarshalStateEventErrors | application/contract/fabric/chaincode/src/docflow/platform/com/error.go:82-196 | the marshal, response-marshal, GetState, no-such-entity, entity-validation and event constructors fail with status 500 and their own codes (520, 521, 540, 630, 650, 660) in the text |
| DocflowErr.DocflowErrors | application/contract/fabric/chaincode/src/docflow/docflow/df_err/error.go:24-57 | each docflow error fails with its code (1020, 1010, 1030, 1040, 1040); the caller's identity never reaches the response |
| DocflowErr.AttachmentNameQuoted | application/contract/fabric/chaincode/src/docflow/docflow/df_err/error.go:54-57 | the attachment name sits between "<<" and ">> already exists." and can be cut back out |
| DocflowUser.ReadCount | application/contract/fabric/chaincode/src/docflow/platform/login/user/user.go:54-97 | the attributes are read in order up to the first that fails or is not held |
| DocflowUser.GetUser | application/contract/fabric/chaincode/src/docflow/platform/login/user/user.go:48-100 | the fields read before the first failing attribute are set and the rest left empty; that attribute's error (lookup error or not possessed) is returned, else success; the call path is restored |
| DocflowUser.GetUserSucceedsIff | application/contract/fabric/chaincode/src/docflow/platform/login/user/user.go:48-100 | success iff all five attributes are held; otherwise the response is a failure |
| DocflowFuncs.KeyToId | application/contract/fabric/chaincode/src/docflow/platform/funcs/encryption.go:37-39 | the id is the key's padded base-64 text |
| DocflowFuncs.IdToKey | application/contract/fabric/chaincode/src/docflow/platform/funcs/encryption.go:25-35 | the key is what decoding gives, and the response is always "String was decrypted successfully."; the call path is restored |
| DocflowFuncs.IdToKeyOfKeyToId | application/contract/fabric/chaincode/src/docflow/platform/funcs/encryption.go:25-39 | an id made from a key converts back to that key |
| DocflowFuncs.CorruptIdStillSucceeds | application/contract/fabric/chaincode/src/docflow/platform/funcs/encryption.go:29-34 | an id that is not base 64 still gives success, with the key decoded up to the bad character |
| Participant.Participant.constructor | application/contract/fabric/chaincode/src/docflow/docflow/df_data/env/participant/struct.go:21-32 | a new participant has its personal fields and no transaction id, key or id |
| Participant.Participant.ToOut | application/contract/fabric/chaincode/src/docflow/docflow/df_data/env/participant/struct.go:43-60 | the record has no parent, the participant id as reference, and the six client-visible fields |
| Participant.Participant.CreateValidation | application/contract/fabric/chaincode/src/docflow/docflow/df_data/env/participant/participant.go:30-32 | every participant may be created |
| Participant.Participant.ChangeValidation | application/contract/fabric/chaincode/src/docflow/docflow/df_data/env/participant/participant.go:34-37 | every change is allowed |
| Participant.Participant.GetKeyObjectType | application/contract/fabric/chaincode/src/docflow/docflow/df_data/env/participant/participant.go:39-41 | participants are stored under "PARTICIPANT" |
| Participant.Participant.GetIndexes | application/contract/fabric/chaincode/src/docflow/docflow/df_data/env/participant/participant.go:43-47 | participants are indexed by their MSP id alone |
| Participant.Participant.SetTxId | application/contract/fabric/chaincode/src/docflow/docflow/df_data/env/participant/participant.go:55-60 | the transaction id reads back as set |
| Participant.Participant.SetId | application/contract/fabric/chaincode/src/docflow/docflow/df_data/env/participant/participant.go:61-66 | the id reads back as set |
| Participant.Participant.SetKey | application/contract/fabric/chaincode/src/docflow/docflow/df_data/env/participant/participant.go:67-72 | the key reads back as set |
| Participant.SettersKeepOtherFields | application/contract/fabric/chaincode/src/docflow/docflow/df_data/env/participant/participant.go:55-72 | each setter changes its own field only; the client projection moves only with the id |
| Participant.ToOutIgnoresTxIdAndKey | application/contract/fabric/chaincode/src/docflow/docflow/df_data/env/participant/struct.go:43-60 | participants differing only in transaction id and key project to the same record |
| DocflowProcess.Route | application/contract/fabric/chaincode/src/docflow/docflow/df_sc/smartcontract.go:38-70 | a name is routed only to the business function invoked by that name |
| DocflowProcess.RouteInvertsNameOf | application/contract/fabric/chaincode/src/docflow/docflow/df_sc/smartcontract.go:38-70 | every business function is routed by its own name |
| DocflowProcess.RoutesParticipantFunctions | application/contract/fabric/chaincode/src/docflow/docflow/df_sc/smartcontract.go:39-44 | the participant functions are reached by their names |
| DocflowProcess.RoutesListingFunctions | application/contract/fabric/chaincode/src/docflow/docflow/df_sc/smartcontract.go:45-51 | listing, chat-template and process creation are reached by their names |
| DocflowProcess.RoutesProcessFunctions | application/contract/fabric/chaincode/src/docflow/docflow/df_sc/smartcontract.go:52-57 | the process queries are reached by their names |
| DocflowProcess.RoutesAttachmentFunctions | application/contract/fabric/chaincode/src/docflow/docflow/df_sc/smartcontract.go:58-63 | attachment, part and response functions are reached by their names |
| DocflowProcess.RoutesVersionFunctions | application/contract/fabric/chaincode/src/docflow/docflow/df_sc/smartcontract.go:64-69 | version and part queries are reached by their names |
| DocflowProcess.ProcTemplateCreationNotRouted | application/contract/fabric/chaincode/src/docflow/docflow/df_sc/smartcontract.go:148 | createProcTemplate is defined but no name reaches it |
| DocflowProcess.CallBusinessFunc | application/contract/fabric/chaincode/src/docflow/docflow/df_sc/smartcontract.go:36-73 | a routed name runs its handler; any other name is the invalid-function error |
| DocflowProcess.CheckOneArg | application/contract/fabric/chaincode/src/docflow/docflow/df_sc/smartcontract.go:466-468 | a handler goes on iff it got exactly one argument, else the argument-count error |
| DocflowProcess.ExecutorFirstParticipantRef | application/contract/fabric/chaincode/src/docflow/docflow/df_sc/smartcontract.go:172-190 | the executor is the first participant under the caller's MSP id; none is the no-participant error |
| DocflowProcess.SetUpElements | application/contract/fabric/chaincode/src/docflow/docflow/df_sc/smartcontract.go:256-262 | every requested participant gets an undecided mark on element 2, which becomes active while element 0 is deactivated, and nothing else changes |
| DocflowProcess.SetUpIsUnique | application/contract/fabric/chaincode/src/docflow/docflow/df_sc/smartcontract.go:256-262 | the set-up is determined by the template and the participants |
| DocflowProcess.SetUpAdmitsParticipants | application/contract/fabric/chaincode/src/docflow/docflow/df_sc/smartcontract.go:256-262 | after set-up each requested participant may respond to the active element 2 |
| DocflowProcess.HandleCreateProcess | application/contract/fabric/chaincode/src/docflow/docflow/df_sc/smartcontract.go:192-296 | each early failure in order; a process is stored iff a template with at least three elements and an executor exist, then the put, participant and marshal failures are passed on and success returns the creation time and id |
| DocflowProcess.FirstBefore | application/contract/fabric/chaincode/src/docflow/docflow/df_sc/smartcontract.go:366-378 | the first response older than the given date, all before it being no older |
| DocflowProcess.Page | application/contract/fabric/chaincode/src/docflow/docflow/df_sc/smartcontract.go:364-387 | a negative count gives the whole history; otherwise at most count consecutive responses from the first older one, fewer only at the end |
| DocflowProcess.PageHistory | application/contract/fabric/chaincode/src/docflow/docflow/df_sc/smartcontract.go:366-387 | the paging loop gives exactly the page |
| DocflowProcess.Reversed | application/contract/fabric/chaincode/src/docflow/docflow/df_sc/smartcontract.go:389-395 | the reversed list holds the same entries in the opposite order |
| DocflowProcess.ReversedTwice | application/contract/fabric/chaincode/src/docflow/docflow/df_sc/smartcontract.go:389-395 | reversing twice gives the list back |
| DocflowProcess.Reverse | application/contract/fabric/chaincode/src/docflow/docflow/df_sc/smartcontract.go:389-395 | the in-place swap loop leaves the array reversed |
| DocflowProcess.ReversedPage | application/contract/fabric/chaincode/src/docflow/docflow/df_sc/smartcontract.go:364-397 | the handler's answer is the reversed page |
| DocflowProcess.HandleGetProcessElementHistory | application/contract/fabric/chaincode/src/docflow/docflow/df_sc/smartcontract.go:335-398 | argument, decode and process-read failures in order; otherwise the reversed page of the element's history |
| DocflowProcess.InvolvedIn | application/contract/fabric/chaincode/src/docflow/docflow/df_sc/smartcontract.go:436-451 | the processes kept are no more than those given |
| DocflowProcess.InvolvedInKeepsExactly | application/contract/fabric/chaincode/src/docflow/docflow/df_sc/smartcontract.go:438-451 | a process is kept iff it is one of those given and its executor approves some element |
| DocflowProcess.IsInvolved | application/contract/fabric/chaincode/src/docflow/docflow/df_sc/smartcontract.go:439-450 | the search finds the executor iff some element lists them as an approver |
| DocflowProcess.HandleGetAllProcesses | application/contract/fabric/chaincode/src/docflow/docflow/df_sc/smartcontract.go:422-460 | query and executor failures; the involved processes when every participant load succeeds, else the first failing load |
| DocflowProcess.IndexOfName | application/contract/fabric/chaincode/src/docflow/docflow/df_sc/smartcontract.go:489-495 | the first attachment with the name, or none has it |
| DocflowProcess.HandleCreateAttachment | application/contract/fabric/chaincode/src/docflow/docflow/df_sc/smartcontract.go:462-501 | an attachment with the same name is answered with its id and nothing is stored; otherwise a new one under the process is stored |
| DocflowProcess.ResetAll | application/contract/fabric/chaincode/src/docflow/docflow/df_sc/smartcontract.go:651-655 | a file response resets every mark to undecided and keeps the approvers |
| DocflowProcess.ElementsAfter | application/contract/fabric/chaincode/src/docflow/docflow/df_sc/smartcontract.go:658-681 | the response changes no element count |
| DocflowProcess.ApproversKept | application/contract/fabric/chaincode/src/docflow/docflow/df_sc/smartcontract.go:603-655 | a response neither adds nor removes approvers |
| DocflowProcess.FileResponseNeverFinishes | application/contract/fabric/chaincode/src/docflow/docflow/df_sc/smartcontract.go:651-676 | a file response never finishes the element |
| DocflowProcess.OthersMarksKept | application/contract/fabric/chaincode/src/docflow/docflow/df_sc/smartcontract.go:603-648 | a non-file response changes only the responder's own mark |
| DocflowProcess.UnsignedApprovalChangesNothing | application/contract/fabric/chaincode/src/docflow/docflow/df_sc/smartcontract.go:624-642 | an approval without the executor's signature on every last version changes no mark |
| DocflowProcess.LastApprovalFinishes | application/contract/fabric/chaincode/src/docflow/docflow/df_sc/smartcontract.go:640-676 | the last approver to approve, or to disapprove, finishes the element |
| DocflowProcess.FinishMovesActivity | application/contract/fabric/chaincode/src/docflow/docflow/df_sc/smartcontract.go:658-681 | the response heads the history; finishing deactivates the element and activates element 1, otherwise activity is unchanged |
| DocflowProcess.SignVersions | application/contract/fabric/chaincode/src/docflow/docflow/df_sc/smartcontract.go:606-621 | every signature is written iff every write succeeds; otherwise the writes stop at the first failure, which is returned |
| DocflowProcess.CheckAllSigned | application/contract/fabric/chaincode/src/docflow/docflow/df_sc/smartcontract.go:631-637 | the loop answers whether the executor signed every last version |
| DocflowProcess.ResetApprovals | application/contract/fabric/chaincode/src/docflow/docflow/df_sc/smartcontract.go:651-655 | the reset loop gives every approver an undecided mark |
| DocflowProcess.CheckAllMarked | application/contract/fabric/chaincode/src/docflow/docflow/df_sc/smartcontract.go:662-676 | the loop answers whether every mark is the given one |
| DocflowProcess.RespondTo | application/contract/fabric/chaincode/src/docflow/docflow/df_sc/smartcontract.go:603-655 | a failed signature write or last-versions read is returned; otherwise the new marks follow the response kind and the signatures |
| DocflowProcess.Conclude | application/contract/fabric/chaincode/src/docflow/docflow/df_sc/smartcontract.go:661-719 | a finishing response whose participant load fails returns that failure; a marshalling error is returned; otherwise the updated process is written |
| DocflowProcess.Admitted | application/contract/fabric/chaincode/src/docflow/docflow/df_sc/smartcontract.go:603-719 | the marks, then the conclusion |
| DocflowProcess.HandleSendResponse | application/contract/fabric/chaincode/src/docflow/docflow/df_sc/smartcontract.go:553-720 | argument, decode, executor and process failures in order; a non-approver is refused; otherwise the response is recorded, stamped with executor and time |
| DocflowProcess.LastVersionIdsExact | application/contract/fabric/chaincode/src/docflow/docflow/df_sc/smartcontract.go:538-547 | exactly the non-empty last versions of the attachments are read |
| DocflowProcess.ReadVersionsSound | application/contract/fabric/chaincode/src/docflow/docflow/df_sc/smartcontract.go:538-547 | the reads succeed iff each does, giving one version per id in order; otherwise the first failing read |
| DocflowProcess.GetLastAttachmentsVersions | application/contract/fabric/chaincode/src/docflow/docflow/df_sc/smartcontract.go:528-551 | an attachment query failure is passed on; otherwise the versions read in attachment order, or the first failed read |
| DocflowProcess.StoreVersion | application/contract/fabric/chaincode/src/docflow/docflow/df_sc/smartcontract.go:778-789 | an attachment is edited only after the version was stored and then points at it; a failed put is what the caller sees |
| DocflowProcess.FailedPutStillEditsAttachment | application/contract/fabric/chaincode/src/docflow/docflow/df_sc/smartcontract.go:778-789 | as written a failed put still moves the attachment to the version's id, and when that edit succeeds the put's failure is returned; testing the put's status edits nothing; when the put succeeds both agree |
| DocflowProcess.HandleCreateAttachmentVersion | application/contract/fabric/chaincode/src/docflow/docflow/df_sc/smartcontract.go:722-790 | early failures in order; a version with the current hash is not stored and answers success; otherwise the stamped, unsigned version is stored and, following the corrected reading of the second finding, the attachment is updated only after a successful store |
| DocflowChaincode.Logger.constructor | application/contract/fabric/chaincode/src/docflow/platform/sc/smartcontract.go:51-68 | a logger holds the level it was made with |
| DocflowChaincode.LevelForInvertsSetterName | application/contract/fabric/chaincode/src/docflow/platform/sc/smartcontract.go:50-69 | each level-setting name sets its own level and no other name sets one |
| DocflowChaincode.Init | application/contract/fabric/chaincode/src/docflow/platform/sc/smartcontract.go:29-31 | the chaincode always starts with a success |
| DocflowChaincode.InitLedger | application/contract/fabric/chaincode/src/docflow/platform/sc/smartcontract.go:74-83 | the level becomes Debug and the chat template's failure is passed on, else success |
| DocflowChaincode.HcInitLedger | application/contract/fabric/chaincode/src/docflow/platform/sc/smartcontract.go:85-104 | the level becomes Debug and the first call, not a business function, always fails with the routing error |
| DocflowChaincode.Invoke | application/contract/fabric/chaincode/src/docflow/platform/sc/smartcontract.go:33-72 | the ledger set-up names, queryUser, the log-level names and then the business functions, run for real |

## Left out

- Goroutines, channels and timeouts: the reply channel is a one-slot buffer, handler runs are sequential, the notification goroutines of `HotData` are not modelled, and the blocking wait of `CloseAndWait` on the open pulse is the precondition that every lease is back (closing any other pulse is refused at once, leases or not).
- The write controller's implementation is not part of this model; its behaviour is the one its tests assert.
- Network, bus and transport plumbing, the RPC server's `NewRPC`, `Start` and `Stop`, and the gateways' own run loops.
- `GetCert` and `ValidateCert` of the base gateway: both only panic, so there is nothing to state.
- Cryptography: ECDSA signing and verification and the hashers; only the DER slicing and the input dispatch of `Verify` are modelled.
- Gob encoding of responses, JSON marshalling and unmarshalling, and `asn1.Unmarshal`: their bytes are opaque values and their errors are parameters.
- ResponseCodec.Deserialize: how many bytes the gob decoder reads is not modelled; it is taken to read the rest of the buffer.
- Wallet.SafeSub: the `safemath` package is not part of this model; its result on underflow (zero) and its error text ("underflow") are assumed, and `Transfer` only passes the error's text on.
- Wallet.SafeAdd: the `safemath` package is not part of this model; its result on overflow (zero) and its error text ("overflow") are assumed, so the zero balance that `Accept` and `TransferIntoFullWallet` state after an overflow rests on that assumption.
- Gateway.Base.OnPulse: the source builds the complete gateway through the network's current gateway (`g.Network.Gateway().NewGateway`); the model builds it through this base, taking the current gateway to embed the same base, so a current gateway with a different base is not modelled.
- PreprocessorParse.ConstructorRules: follows the corrected reading of the first finding; the panic of `parseConstructor` on grouped results is stated separately by `GroupedResultsIndexPastEntries`.
- PreprocessorParse.MethodRules: follows the corrected reading of the first finding; the panic of `parseMethod` on grouped results is stated separately by `GroupedResultsIndexPastEntries`.
- PreprocessorParse.ParsedFile.ParseFunctionsAndMethods: follows the corrected reading of the first finding, as its scan does.
- PreprocessorParse.ParseFile: follows the corrected reading of the first finding, as its function scan does.
- DocflowProcess.HandleCreateAttachmentVersion: follows the corrected reading of the second finding (`StoreVersion`); the code as written is `StoreVersionAsWritten`.
- The Go parser and printer, file reading, GOPATH lookup, the code templates and reference hashing of the preprocessor: the syntax tree is given as a value.
- Fabric shim and storage calls (`data.Put`, `QueryById`, `QueryByIndex`, `EditAll`, `SetEvent`, `cid.GetAttributeValue`): their results are parameters. An event's send error is ignored, as in the source. Reads after writes within one transaction are not modelled.
- The participants list that `addParticipantsArrToProcessObject` attaches to a process is only modelled through its response.
- `createParticipant`, `editParticipant`, `getMyParticipants`, `getAllParticipants`, `hcCreateTemplateOfChat`, `createPart`, `getAttachmentsByProcessReference`, `getPartsByVersionReference`, `getPartByReference` and `queryUser` are only reached by routing; their own bodies are thin storage wrappers and are handler parameters.
- The process template package is not part of this model; the elements are given as values.
- GetCode.ErrInvalidRef: the ledger's `ErrInvalidRef` is not defined in the modelled files; its text "invalid reference" is assumed.
- `RequestMandate` of the node-update contract: float32 rate arithmetic, the clock and a foundation call.
- `GetDelegate` of the logic-runner RPC (logicrunner/common/rpc.go:278-293): a pass-through to the artifact manager's `GetDelegate`, which is not part of this model.
- DocflowCom.ErrorConstructors: together with `MarshalStateEventErrors` it covers the fifteen modelled constructors; the other twelve of error.go (`CreateCompositeKeyError`, `DecryptError`, `EditStateOnNotExistKeyError`, `EncryptError`, `GetMSPIDError`, `GetStateByPartialCompositeKeyError`, `GetTxTimestampError`, `IncorectNumberOfFieldsError`, `IteratorNextError`, `PutStateError`, `PutStateOnExistKeyError`, `SplitCompositeKeyError`) are not modelled.
- PreprocessorAst.IsExported: tests for an ASCII capital `A`-`Z`, where Go's `ast.IsExported` applies `unicode.IsUpper` to the first rune, so a name starting with a non-ASCII capital is exported in Go but not in the model.
- Rpc.ModeState.RouteCall: the object and mode state are given; the panics of `MustObjectState`/`MustModeState` on an unknown callee or mode, which `recoverRPC` turns into an error, are not modelled. The same holds for Rpc.ModeState.Save, Rpc.ModeState.DeactivateObject and Rpc.IteratorRegistry.GetObjChildrenIterator.
- Rpc.ModeState.Save: the object and mode state are given, as for `RouteCall`.
- Rpc.ModeState.DeactivateObject: the object and mode state are given, as for `RouteCall`.
- Rpc.IteratorRegistry.GetObjChildrenIterator: the object and mode state are given, as for `RouteCall`.
- Logging and printing, including the global call-path stack pushed and popped around each docflow function.
- Go map iteration order: loops over maps are proved for any order.
- DocflowProcess.HandleSendResponse: requires a second process element even when the element does not finish, where the source only touches element 1 on finishing.
- DocflowProcess.Conclude: requires a second process element even when the element does not finish, for the same reason.
- DocflowProcess.RespondTo: a version read failure and a signature write failure in the signing loop are one failing response per signature.

## Findings

| source | as written | input that shows it | evidently intended | confidence | as-written member | corrected member |
|---|---|---|---|---|---|---|
| logicrunner/preprocessor/main.go:175, 193 | the result type is taken from the entry list at the index of the declared result | a method returning `(a, b int, err error)`: three declared results in two entries, so index 2 is out of range and Go panics | the type of the k-th declared result, counting each name of a grouped entry | not executed | PreprocessorParse.GroupedResultsIndexPastEntries | PreprocessorParse.ResultTypeName |
| application/contract/fabric/chaincode/src/docflow/docflow/df_sc/smartcontract.go:778-781 | after storing the version, the status checked is the time lookup's, which is always a success | a `data.Put` of the version that fails: the attachment is still pointed at the version's id and handed to `EditAll` during the call, though the put's failure is still returned at line 789 so the transaction as a whole fails | test the put's own status and return its failure before editing the attachment | not executed | DocflowProcess.FailedPutStillEditsAttachment | DocflowProcess.StoreVersion |
