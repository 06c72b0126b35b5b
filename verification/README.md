# NAC-ABE verification model

A Dafny model of the code between the library calls of NAC-ABE, with proofs. It covers the four roles
of the protocol:

- the consumer's content-key engine (in-flight set, waiter queues, cache of wrapped keys) and, under it,
  the process-wide cache of unwrapped keys with its write through a shared content key;
- the producer's routing table, its content pipeline, and the producer that reuses keys;
- the wire codec at byte level: TLV, names, content packets, CK packets, the hybrid envelope, and policy
  commands as the data owner builds and the producer parses them;
- decryption-key delivery by the attribute authority, and the bounded fetch of public parameters.

`dafny verify dfyconfig.toml` checks the whole project.

## How it is modelled

`std::string` and `ndn::Buffer` are byte sequences; a name is the sequence of its component blocks.
An object whose methods update its fields is a class. Each such method is proved equal to a step
function on a value of type `State` (or `Fetcher`, `Caches`, `Table`), and what the protocol promises is
proved about runs of those step functions. The network is the environment: it owes one completion or one
error per fetch it was asked for, and one content per CK name. Callbacks are entries of a log. Calls to
OpenABE, AES and RSA are functions in a record `Library`; every random choice is an argument. What an ideal
library does is the predicate `Ideal`, shown consistent for every satisfaction relation. The refinement,
exactly-once, routing, retry and codec results hold for any library, ideal or not.

What the consumer keeps about its parameters is the fetcher's own state, and the shared map of unwrapped
keys is the ABE support's; the consumer's state includes both, so the fetcher's handlers and the clearing
of the map are steps of the consumer as well.

Assumptions: content and CK blocks have the elements the consumer reads, and buffers read as C strings
hold a NUL (for produced content `EndToEnd.PublicationOpens` says exactly when they do); callbacks neither
throw nor call back into the consumer; attribute lists given to ABE are not empty; wires fit 64 bits, while
the casts to 32 bits in `src/algo/abe-support.cpp` are modelled as they are; `isSegment` and `isVersion`
follow the typed naming convention; the wrapped keys, sealed contents and private keys of OpenABE are text
without NUL.

## Where code and documentation differ, or surprise

- A repeated registration of a decryptor is ignored: `std::map::insert` keeps the first
  (`Authority.AuthorityNode.AddNewPolicy`).
- A policy for the empty data prefix is stored and never found (`PrefixTable.CommandFrame`).
- The caching producer does not hand on the segment size it is given: both steps use 1500.
- The map of unwrapped keys is looked up by wrapped key alone, so a hit consults neither the private key
  nor the public parameters. `AbeSupport.CachedAgreesExactly` gives the exact condition under which that
  cannot be seen, for readers of any deployment; it assumes that a key of one deployment opens nothing wrapped
  in another. With one private key and one set of parameters per process it never can
  (`ConsumerRefinement.EngineRefinesNaive`).
- Sizes are cast to 32 bits when a plaintext is sealed, when the sealed text and the wrapped key are copied
  with their NUL, and when the recovered text is copied. Of a plaintext of 4 GiB or more only what a 32-bit
  size counts is recovered, as a success: nothing at exactly 4 GiB (`AbeSupport.FourGibIsLost`). A sealed text
  or wrapped key of 2^32 - 1 bytes or more loses its NUL, and reading it is undefined. The end-to-end results
  state both conditions.
- The naming document puts an identity block and a signature into DKEY names and only a number behind CK;
  the code puts a key-name block and no signature, and adds ENC-BY with the policy or attributes. The
  top-level README says that key requests are verified against a certificate; the code does not check a
  signature on them. The model follows the code.

## Model

| member | source | states |
|---|---|---|
| ConsumerRefinement.EngineRefinesNaive | src/consumer.cpp:181-311 | For every interleaving of requests, packet arrivals, CK completions, fetch errors, parameter events, key arrivals and cache clearing, the callbacks are, in order and in outcome, those of a consumer without caches in which every request starts a CK fetch of its own and each of these fetches ends in an event of its own; that run is possible, and apart from the ends of CK fetches its events are the same in the same order |
| ConsumerRefinement.ScheduleShares | src/consumer.cpp:199-276 | The schedule given to that consumer changes nothing but the ends of CK fetches |
| ConsumerRefinement.AfreshRuns | src/consumer.cpp:199-276 | Each engine event is matched by possible events of that consumer: an arrival answered from the cache by a fetch that is answered next, the end of a shared fetch by one end per waiter |
| ConsumerRefinement.DrainEnds | src/consumer.cpp:255-276 | Ending the own fetches of a CK one by one calls back all its waiters in order with what each fetch brought, and leaves the others waiting |
| ConsumerRuns.ExactlyOnce | src/consumer.cpp:199-276 | When no fetch is outstanding, the requests called back are, as a multiset, the calls of consume in the run |
| ConsumerRuns.RunKeepsBooks | src/consumer.cpp:220-276 | In every reachable state each accepted request is in exactly one place, and for each CK those called back followed by those queued are those that arrived, in arrival order |
| ConsumerRuns.FetchedAtMostOnce | src/consumer.cpp:199-264 | Over any run a CK name is cached after exactly one completed fetch, and no run completes a fetch of one name twice |
| Consumer.StepKeepsInv | src/consumer.cpp:199-276 | Every step keeps: the in-flight set is the domain of the waiter table, no queue is empty, each in-flight name has exactly one outstanding fetch, in-flight and cached names are disjoint |
| ConsumerRuns.RunKeepsInv | src/consumer.cpp:199-276 | The engine invariant holds in every state reached from one that has it |
| ConsumerRuns.ReadyIsSupported | src/consumer.cpp:87-99 | In every reachable state that is ready, or has anything to decrypt, the ABE type is CP-ABE or KP-ABE, so neither "Unsupported ABE type" branch is taken |
| EndToEnd.ConsumedExactly | src/consumer.cpp:187-311 | Over every interleaving with other requests, every callback a request for produced content gets once its packet has arrived is the exact plaintext if and only if the key satisfies the policy the producer was given (or is satisfied by the joined attributes) and the plaintext is shorter than 4 GiB (a longer one is cut to what a 32-bit size counts), and an error if it does not; or it is the error of the very fetch the request was queued on; CP and KP alike |
| EndToEnd.FourGibPublication | src/algo/abe-support.cpp:217-219 | Of a plaintext of exactly 4 GiB a consumer that may read it is handed the empty string as a success |
| EndToEnd.EveryOutcomeExplained | src/consumer.cpp:199-311 | Every callback made for a CK is the outcome of decrypting that very request under the content of that CK with nothing remembered, or the error of the fetch that was in flight with the request in its queue, made by that error event |
| EndToEnd.GrantDecides | src/attribute-authority.cpp:186-207 | When the consumer holds the key that an issued object of a reachable authority delivers, what decides between plaintext and error is whether the first grant registered, in the run, for the identity before KEY in the key name satisfies the rule |
| EndToEnd.EveryRequestAnswered | src/consumer.cpp:199-276 | When nothing is outstanding a request has been called back exactly as often as consume was called for it in the run |
| EndToEnd.PublicationOpens | src/producer.cpp:342-358 | The content object parses and tells the plaintext size; the two objects are readable exactly if the sealed text and the wrapped key, with their NUL, fit a 32-bit size; then they name the CK object fetched, and open for exactly the keys that satisfy the given policy, or are satisfied by the joined attributes, to the exact plaintext exactly below 4 GiB |
| EndToEnd.CachedIsPublication | src/cache-producer.cpp:33-73 | Whatever the caching producer returns in a reachable ready state is an output of the uncached producer for the same policy, or for a list with the same joined attributes, and readable by exactly the same keys; so all of the above applies to it |
| EndToEnd.FromConstruction | src/consumer.cpp:39-311 | From construction with empty caches: parameters, private key, one request for readable produced content, its packet and its CK form a possible run whose only callback is the exact plaintext if and only if the key satisfies the rule and the plaintext is shorter than 4 GiB, and an error if the key does not satisfy the rule |
| EndToEnd.OutcomeOfPacket | src/consumer.cpp:187-311 | In every reachable state what a request is called back with for a CK depends only on its own packet and the content of the CK that packet names: the uncached decryption, or the error of the fetch it was queued on; for any library |
| EndToEnd.FirstRequest | src/consumer.cpp:228-264 | From any ready state with a true key cache: request, packet and CK add exactly the callback of the uncached decryption |
| Consumer.SharedCkKey | src/consumer.cpp:172-178 | The names that share a queue, a fetch and a cache entry with an object are its own name and the names of its segments, and no others |
| Consumer.SegmentsStandForObject | src/consumer.cpp:172-178 | The name of any segment is normalised to its object, and a name whose last component is not of type 50 to itself |
| Consumer.PacketWaitsForObject | src/consumer.cpp:187-196 | A packet that names a CK object or any of its segments waits for the object, with the cipher text and size it carries |
| Consumer.EarlyCallbacks | src/consumer.cpp:106-158 | The texts and occasions of the callbacks made before a packet arrives: the refusal when parameters or key are missing, and the prefixed data-fetch error |
| ConsumerRuns.RunRequests | src/consumer.cpp:101-158 | The accepted requests of a run are the calls of consume in it, in order |
| ConsumerRuns.InitialState | src/consumer.cpp:39-53 | The state after construction satisfies the engine invariant and the balance of the books |
| ConsumerRuns.StepCaches | src/consumer.cpp:243-264 | A step adds a name to the CK cache exactly when it is that name's completion, and only if it was not cached |
| ConsumerRuns.StepKeepsParams | src/consumer.cpp:115-158 | Nothing is fetched or cached before the public parameters are stored, and they are not lost afterwards |
| ConsumerRuns.StepKeepsBalance | src/consumer.cpp:199-276 | Every step keeps, for every CK, called back + queued = arrived, as sequences |
| ConsumerRuns.StepKeepsAccounts | src/consumer.cpp:115-158 | Every step keeps: accepted = awaiting packet + called back before the packet + arrived, as multisets |
| ConsumerRuns.ArrivalBalances | src/consumer.cpp:199-229 | An arriving packet is either answered from the cache with an empty queue before it, or put last in its queue |
| ConsumerRuns.CompletionCallsBack | src/consumer.cpp:243-264 | A completed CK fetch calls back its whole queue in order and nobody else |
| ConsumerRuns.ErrorCallsBack | src/consumer.cpp:265-276 | A failed CK fetch calls back its whole queue in order and nobody else |
| ConsumerRuns.EndOfFetchBalances | src/consumer.cpp:256-275 | A finished fetch moves its queue behind those already called back, leaving every other queue alone |
| Consumer.DecryptContentKeepsInv | src/consumer.cpp:195-229 | Each of the three cases (cached, in flight, new fetch) keeps the engine invariant |
| Consumer.EndOfFetchKeepsInv | src/consumer.cpp:256-275 | Ending a fetch, by completion or error, keeps the engine invariant |
| ConsumerRefinement.SimStep | src/consumer.cpp:181-311 | One step of the engine keeps, against the cacheless consumer after the matching events: equal logs, equal queues per CK and true caches |
| ConsumerRefinement.RunTaskIsNaive | src/algo/abe-support.cpp:246-271 | While every remembered key is what the private key would unwrap, a decryption through the cache logs what the full path would, and the cache stays true |
| ConsumerRefinement.FanOutIsNaive | src/consumer.cpp:255-262 | Serving all waiters through the shared cache logs the naive answer of each, in order |
| ConsumerRefinement.ReadyFreezes | src/consumer.cpp:75-99 | Once ready, no event changes the ABE type, the parameters or the private key any more |
| ConsumerRefinement.SimCompletion | src/consumer.cpp:243-264 | A completion is simulated by ending all own fetches of that name with its content |
| ConsumerRefinement.SimError | src/consumer.cpp:265-276 | An error is simulated by failing all own fetches of that name |
| ConsumerRefinement.SimArrive | src/consumer.cpp:195-229 | An arrival is simulated by a fetch of its own, answered next where the engine has the CK cached |
| Consumer.ConsumerNode.constructor | src/consumer.cpp:39-53 | The new consumer is in the initial state, with one parameter fetch started |
| Consumer.ConsumerNode.ReadyForDecryption | src/consumer.cpp:87-99 | True exactly when both parameters and private key are there |
| Consumer.ConsumerNode.OnKeyComplete | src/consumer.cpp:75-81 | The new state is the specified one: the private key is what the envelope holds up to its NUL |
| Consumer.ConsumerNode.ConsumeData | src/consumer.cpp:101-145 | The new state is the specified one: refused when not ready, otherwise one more data fetch |
| Consumer.ConsumerNode.ConsumeDataBlock | src/consumer.cpp:147-158 | The new state is the specified one: refused when not ready, otherwise decrypted as an arrived packet |
| Consumer.ConsumerNode.OnDataComplete | src/consumer.cpp:133-140 | The new state is the specified one: the packet goes to decryptContent |
| Consumer.ConsumerNode.OnDataError | src/consumer.cpp:141-144 | The new state is the specified one: one error callback with the fetch error |
| Consumer.ConsumerNode.Decrypt | src/consumer.cpp:180-229 | The new state is that of the specified decryptContent |
| Consumer.ConsumerNode.Dispatch | src/consumer.cpp:199-229 | Exactly one of the three cases, with the fields each may change |
| Consumer.ConsumerNode.Wait | src/consumer.cpp:220-229 | The request joins its queue last, and a fetch starts exactly if none was in flight |
| Consumer.ConsumerNode.Attempt | src/consumer.cpp:203-216 | One decryption by ABE type and one callback |
| Consumer.ConsumerNode.FanOutTo | src/consumer.cpp:255-262 | All waiters served in order |
| Consumer.ConsumerNode.ServeWaiters | src/consumer.cpp:243-264 | The fields a CK completion changes, and to what |
| Consumer.ConsumerNode.OnCkFetched | src/consumer.cpp:243-264 | The new state is the specified completion and the engine invariant holds again |
| Consumer.ConsumerNode.Broadcast | src/consumer.cpp:270-272 | One error callback per waiter, in order |
| Consumer.ConsumerNode.FailWaiters | src/consumer.cpp:265-276 | The fields a CK error changes, and to what |
| Consumer.ConsumerNode.OnCkFetchError | src/consumer.cpp:265-276 | The new state is the specified error handling and the engine invariant holds again |
| AbeSupport.CacheAlwaysCoherent | src/algo/abe-support.cpp:241-294 | After decryptions by any holders of keys of any deployments and any clearing, each entry of the process-wide decrypted-key map was unwrapped by a decryption of the run, and takes a wrapped key to the key that was wrapped |
| AbeSupport.RememberedWasPermitted | src/algo/abe-support.cpp:249-271 | A wrapped key is in the map only if a holder of its own deployment who satisfies what it was wrapped for has decrypted in the run |
| AbeSupport.CachedAgreesExactly | src/algo/abe-support.cpp:246-294 | In every reachable state, for a reader of any deployment, the cached decryption equals the full path if and only if the wrapped key is not remembered, or the reader is of the deployment it was wrapped in and its key satisfies the policy; clearing empties the map |
| AbeSupport.CachedCanDiffer | src/algo/abe-support.cpp:249-253 | The remaining case is reachable: after a satisfying holder has decrypted, the map answers a non-satisfying holder, and any reader of another deployment, whose full path fails |
| AbeSupport.FullPathOpens | src/algo/abe-support.cpp:212-289 | With nothing remembered and both buffers readable, decryption yields the exact plaintext if and only if the key satisfies the policy and the plaintext is shorter than 4 GiB; a longer one cut to its 32-bit size; an error if the key does not satisfy the policy |
| AbeSupport.FailureReasons | src/algo/abe-support.cpp:264-288 | Decryption fails with "Decryption error!" exactly when the library refuses the key, and with the text of the exception exactly when a library call throws |
| AbeSupport.WholeBuffers | src/algo/abe-support.cpp:200-227 | Each of the two copied buffers holds its NUL, and reads back whole, exactly when its length plus one is below 2^32 |
| AbeSupport.FourGibIsLost | src/algo/abe-support.cpp:217-219 | A concrete input: under an ideal library, a plaintext of 2^32 bytes is decrypted by a satisfying holder to the empty string |
| AbeSupport.WriteThroughKeepsKey | src/algo/abe-support.cpp:249-270 | A decryption leaves the shared content key as it was if and only if the key is remembered, or the reader may unwrap it, or the failing library leaves no other bytes in it |
| AbeSupport.ABESupport.Decrypt | src/algo/abe-support.cpp:241-289 | Outcome, decrypted-key map and the shared content key afterwards, each as specified, in every branch |
| AbeSupport.ABESupport.Encrypt | src/algo/abe-support.cpp:212-239 | The content is readable exactly if the sealed text plus its NUL fits a 32-bit size, and then opens under the content key to what a 32-bit size counts of the plaintext |
| AbeSupport.ABESupport.ContentKeyGen | src/algo/abe-support.cpp:183-210 | None exactly when the library throws; else a fresh content key holding the key and its wrapping, copied with its NUL under a 32-bit size |
| AbeSupport.ABESupport.CpContentKeyGen | src/algo/abe-support.cpp:75-81 | The content key wrapped for the policy string |
| AbeSupport.ABESupport.KpContentKeyGen | src/algo/abe-support.cpp:115-125 | The content key wrapped for the attributes separated by bars |
| AbeSupport.ABESupport.CpPrvKeyGen | src/algo/abe-support.cpp:62-73 | The private key for the attributes separated by bars: under a correct library it unwraps exactly what was wrapped for policies they satisfy |
| AbeSupport.ABESupport.KpPrvKeyGen | src/algo/abe-support.cpp:107-113 | Under a correct library the key generated for a policy unwraps exactly what was wrapped for attributes that satisfy it |
| AbeSupport.ABESupport.ClearCachedContentKeys | src/algo/abe-support.cpp:291-294 | The decrypted-key map is empty |
| ByteStrings.TerminatedRoundTrip | src/algo/private-key.cpp:27-40 | Writing size+1 bytes and reading to the first NUL is the identity exactly on NUL-free strings, and cuts at the first NUL otherwise |
| ByteStrings.CopiedRoundTrip | src/algo/abe-support.cpp:226-227 | The same with the size taken to 32 bits: the identity exactly on NUL-free strings whose size plus one is below 2^32; otherwise a NUL-free string loses its NUL |
| ByteStrings.Take32 | src/algo/abe-support.cpp:280-281 | What is copied under a size taken to 32 bits is the whole string exactly when it is shorter than 4 GiB |
| ByteStrings.CString | src/algo/abe-support.cpp:275-275 | The longest NUL-free prefix of the buffer |
| Attributes.Join | src/algo/abe-support.cpp:119-123 | The loop of appended bars and the final pop_back give the attributes separated by bars |
| Attributes.SameKeySameString | src/cache-producer.cpp:59-61 | Two non-empty lists have the same cache key exactly when ABE is given the same attribute string |
| Attributes.JoinReads | src/algo/abe-support.cpp:119-124 | Attributes without a bar are, in order, the pieces of the attribute string between its bars |
| Attributes.JoinInjective | src/algo/abe-support.cpp:119-124 | On attributes without a bar, the attribute string determines the list |
| PrefixTable.ReplayIsLastWins | src/producer.cpp:230-257 | After any sequence of commands the table has no duplicate prefix and equals the last-write-wins map of the commands |
| PrefixTable.PolicyVector.Add | src/producer.cpp:230-257 | The entry is overwritten in place if the prefix is there, appended otherwise |
| PrefixTable.PolicyVector.FindMatched | src/producer.cpp:259-289 | The scan with a running best returns the entry of the longest non-empty registered prefix of the name, or the default |
| PrefixTable.CommandFrame | src/producer.cpp:230-289 | Setting a prefix changes the lookup of exactly the names under it with no longer registered match; the root prefix changes none |
| PrefixTable.LongestMatchUnique | src/producer.cpp:265-272 | Any registered non-empty prefix of the name that no other exceeds is the one found |
| PrefixTable.OrderIrrelevant | src/producer.cpp:230-289 | Command sequences with the same last-write-wins map give the same lookups |
| PrefixTable.PutMeaning | src/producer.cpp:234-240 | On the map a command is an update; distinct prefixes stay distinct |
| PrefixTable.MapEntries | src/producer.cpp:234-240 | With distinct prefixes the map has exactly the entries of the table |
| PrefixTable.MatchLength | src/producer.cpp:264-271 | A registered prefix length beyond which no longer prefix is registered |
| Producer.TablesFollowAccepted | src/producer.cpp:291-340 | For every interleaving of stored parameters and policy Interests, authentic or forged, well-formed or not, early or not, the tables have no duplicate prefix and are those of the accepted commands alone, and lookups follow the last accepted command per prefix |
| Producer.OwnerGovernsPolicies | src/producer.cpp:291-313 | When the authentic Interests are the owner's, the policy found for a name is the last one commanded, while CP-ABE was in force, for its longest non-empty commanded prefix; whatever forged or early Interests come in between |
| Producer.OwnerGovernsAttributes | src/producer.cpp:305-313 | The same for attribute lists under KP-ABE |
| Producer.OwnerChoosesPolicy | src/producer.cpp:188-216 | In every reachable state under CP-ABE producing by name encrypts for that policy, or produces nothing when there is none or it is empty |
| Producer.OwnerChoosesAttributes | src/producer.cpp:188-216 | The same under KP-ABE for that attribute list |
| Commands.PolicyCommandRoundTrip | src/data-owner.cpp:45-48 | For every data prefix, policy and trailing signature components the command falls under the prefix the producer listens on, and the producer decodes exactly what the owner encoded |
| Commands.AttributeCommandRoundTrip | src/data-owner.cpp:100-108 | The same for attribute lists, built backwards by the owner and parsed by the producer |
| Commands.BackwardIsForward | src/producer.cpp:170-172 | Prepending attributes in reverse gives the same bytes as appending them in order, so command component and CK name component agree |
| Commands.EncodeAttributesBackward | src/data-owner.cpp:100-105 | The prepending loop yields the blocks of the attributes in list order |
| Commands.EncodeAttributesForward | src/producer.cpp:170-172 | The push_back loop yields the bytes of the attributes appended in order |
| Commands.ReadStrings | src/producer.cpp:308-311 | The values of the parsed elements, in order |
| Producer.KeyIsForRule | src/producer.cpp:97-127 | Key generation does nothing exactly without parameters of its scheme, fails exactly when ABE throws, and otherwise yields the wrapping of the fresh key for exactly the policy given, or the attributes given joined by bars |
| Producer.ProduceOutcome | src/producer.cpp:77-95 | Nothing exactly without parameters of the rule's scheme, an error exactly when ABE throws, packets otherwise |
| Producer.PublishedContent | src/producer.cpp:342-358 | The content segments, named identity, suffix, number and none longer than the maximum, reassemble to a packet that parses to the sealed plaintext, the plaintext size as a 32-bit number and the CK object name |
| Producer.PublishedOpens | src/producer.cpp:84-94 | Each content packet, under identity and suffix, tells the plaintext size and names the object of the CK segments published with it; the two buffers keep their NUL exactly when they fit a 32-bit size, and then open for exactly the holders that satisfy the given policy, or are satisfied by the joined attributes, to the exact plaintext exactly below 4 GiB |
| Producer.GeneratedPair | src/producer.cpp:97-127 | A generated key is wrapped for the given policy or the joined attributes, its segments, none longer than the maximum, reassemble to its CK packet, all hang under one object name that consumers do not normalise away |
| Producer.CkNamesDistinct | src/producer.cpp:115-121 | Keys generated with different random words never share a CK name, whatever their rules |
| Producer.CkNameTellsRule | src/producer.cpp:115-177 | A CK name reads identity, CK, the random word in decimal, ENC-BY, and the attribute list, or the policy up to its first NUL: the policy itself exactly when it has none |
| Producer.OnlyGoodCommandsCount | src/producer.cpp:291-340 | A policy Interest changes a table only if it is authentic and decodes under the producer's scheme, and exactly then is answered with success; exactly a forged one gets no reply, exactly an authentic one without a scheme is answered with failure, and exactly a malformed one raises |
| Producer.ProducerNode.CkDataGenPolicy | src/producer.cpp:97-127 | No key without parameters or under another scheme, an error if wrapping throws, else the symmetric key wrapped for exactly the given policy, with its segments |
| Producer.ProducerNode.CkDataGenAttributes | src/producer.cpp:148-186 | The same for exactly the given attributes joined by bars |
| Producer.ProducerNode.GetCkEncryptedData | src/producer.cpp:342-358 | The segments of the encoded content packet under identity and suffix |
| Producer.ProducerNode.ProduceWithKey | src/producer.cpp:218-228 | The segments of the packet with the content sealed under the given key, its size and the given CK name |
| Producer.ProducerNode.ProducePolicy | src/producer.cpp:77-95 | The specified production for a policy |
| Producer.ProducerNode.ProduceAttributes | src/producer.cpp:129-146 | The specified production for an attribute list |
| Producer.ProducerNode.ProduceByName | src/producer.cpp:188-216 | The production for the rule that governs the name, or nothing |
| Producer.ProducerNode.OnPolicyInterest | src/producer.cpp:291-340 | Both tables and the reply afterwards, for authentic, forged, malformed and unsupported commands |
| CacheProducer.StepKeepsCoherent | src/cache-producer.cpp:26-73 | Every step keeps: each cached pair is a key generated for the rule it is filed under, and the successful key generations since the last clear, counted where they happen, are as many as the entries |
| CacheProducer.Run | src/cache-producer.cpp:26-73 | Every reachable state is coherent |
| CacheProducer.OneKeyBetweenClears | src/cache-producer.cpp:33-73 | Over any run, between clears, all productions with one policy, or one string of joined attributes, return one and the same CK, whatever comes in between, and all but the first leave caches and count as they are |
| CacheProducer.SecondUseReuses | src/cache-producer.cpp:39-50 | From any caches, a production with the same ABE input as the one before returns the same CK and changes nothing, whatever the random choices |
| CacheProducer.ClearedStartsOver | src/cache-producer.cpp:26-31 | After a clear the next production is that of the uncached producer |
| CacheProducer.CachedOutputIsFreshOutput | src/cache-producer.cpp:39-50 | In every reachable ready state a cached production returns what the uncached producer could return for a rule with the same ABE input |
| CacheProducer.SharedExactly | src/cache-producer.cpp:59-69 | Two rules share an entry exactly when ABE is given the same string for both |
| CacheProducer.CacheProducerNode.ProducePolicy | src/cache-producer.cpp:33-51 | Caches and packets afterwards as specified; on a hit the packets carry the filed CK and no key is generated |
| CacheProducer.CacheProducerNode.ProduceAttributes | src/cache-producer.cpp:53-73 | The same under the attribute-stream key |
| CacheProducer.CacheProducerNode.PolicyKey | src/cache-producer.cpp:39-47 | On a hit exactly the filed key and nothing changed, else a generated one that is then filed; failures file nothing |
| CacheProducer.CacheProducerNode.AttributesKey | src/cache-producer.cpp:62-69 | The same for attribute lists |
| CacheProducer.CacheProducerNode.AttributeStream | src/cache-producer.cpp:59-61 | Every attribute followed by a bar |
| CacheProducer.CacheProducerNode.ClearCache | src/cache-producer.cpp:26-31 | Both caches are empty and the count starts again |
| Packets.DataContentRoundTrip | src/producer.cpp:349-353 | Parsing a built content packet by type returns cipher text, plaintext size and CK name, for all values and all lengths |
| Packets.DataContentWire | src/algo/cipher-text.cpp:27-34 | The wire of a content packet holds elements 602, 603 and 7 in this order with cipher text, size and CK name |
| Packets.CkWireElements | src/algo/content-key.cpp:49-56 | The wire of a CK packet holds one element, 601, with the wrapped key |
| Packets.EnvelopeWire | src/ndn-crypto/data-enc-dec.cpp:41-46 | The wire of the envelope holds elements 602, 601 and 605 in this order |
| Packets.CkRoundTrip | src/algo/content-key.cpp:49-56 | Parsing a built CK packet returns the wrapped key |
| Packets.EnvelopeRoundTrip | src/ndn-crypto/data-enc-dec.cpp:28-80 | The owner of the RSA key recovers exactly the payload of the hybrid envelope |
| Tlv.VarRoundTrip | src/common.hpp:88-93 | Variable-size numbers of 1, 3, 5 and 9 bytes decode to what was encoded, whatever follows |
| Tlv.VarIsShortest | src/common.hpp:88-93 | No bytes that decode to a number are fewer than its encoding |
| Tlv.TypeCodes | src/common.hpp:88-93 | The bytes of the type codes 601, 602, 603, 605 and 606, in the three-byte form |
| Tlv.NniIsShortest | src/algo/cipher-text.cpp:32-32 | The same for non-negative integers |
| Tlv.BlockLayout | src/data-owner.cpp:102-103 | A block reads as its type, then its length, then its value |
| ByteStrings.MostSignificantFirst | src/algo/cipher-text.cpp:32-32 | Numbers are written with the most significant byte first |
| Tlv.NniRoundTrip | src/algo/cipher-text.cpp:32-32 | Non-negative integers of 1, 2, 4 and 8 bytes decode to what was encoded |
| Tlv.BlocksRoundTrip | src/producer.cpp:307-311 | Parsing the concatenation of blocks returns the blocks |
| Tlv.ContentRoundTrip | src/consumer.cpp:187-188 | Parsing an encoded content block, of type 21, returns its elements |
| Names.NameRoundTrip | src/data-owner.cpp:47-47 | A name decodes from its encoding |
| Commands.AttributePayloadRoundTrip | src/producer.cpp:307-311 | Parsing either encoding of an attribute list returns its blocks, and their values are the list |
| Names.ReassembleSegment | src/producer.cpp:352-356 | The segments of a block, concatenated in order, are the block |
| Names.SegmentSizes | src/producer.cpp:352-356 | Segments are named object and number, none is longer than the maximum, and only the last may be shorter |
| Authority.KeyDelivered | src/attribute-authority.cpp:77-139 | Over any interleaving of requests by any decryptors with fresh versions, the segments of an issued object reassemble to exactly the block generated for it, and the RSA key holder recovers a private key for exactly the attributes or policy of the first registration, in the run, of the identity that stands before KEY in the key name of the request |
| Authority.RunRegisters | src/attribute-authority.cpp:171-184 | After any run the registry is exactly the first grant of each identity, and the known certificates the last one of each key |
| Authority.StepRegisters | src/attribute-authority.cpp:171-176 | A registration of a new identity takes effect, a repeated one does not, and nothing but a registration touches the registry |
| Authority.KeyNameTellsIdentity | src/attribute-authority.cpp:203-204 | From the name identity / KEY / id the identity is recovered |
| Authority.UnregisteredIgnored | src/attribute-authority.cpp:203-206 | After any run, whatever follows the key name, a request under the key of an identity never registered changes nothing and gets nothing |
| Authority.ServedLater | src/attribute-authority.cpp:83-93 | For every run of requests and every continuation of it, segment i of an object stored in between is answered with exactly that segment as built, and nothing else changes |
| Authority.SegmentServed | src/attribute-authority.cpp:83-93 | A segment request is answered with exactly one packet, the one of that name |
| Authority.RequestAnswered | src/attribute-authority.cpp:94-105 | After any run, a decryptor whose identity was registered and whose certificate was added, asking under identity / KEY / id, is issued an object for that key, its first grant and its last certificate, and sent the first segment |
| Authority.RunKeepsStore | src/attribute-authority.cpp:126-139 | In every reachable state every stored object is the segments of a genuine issue; registrations and stored objects are never replaced |
| Authority.StepKeepsStore | src/attribute-authority.cpp:77-139 | Every step keeps that |
| Authority.AuthorityNode.AddNewPolicy | src/attribute-authority.cpp:171-176 | A new identity is registered with the grant; the first registration of an identity stays, as std::map::insert leaves it |
| Authority.AuthorityNode.AddCertifiedPolicy | src/attribute-authority.cpp:178-184 | The certificate is added or replaced, and the identity of its key registered unless it is already |
| Authority.AuthorityNode.GetPrivateKey | src/attribute-authority.cpp:186-194 | The key generated for the registered attributes or policy |
| Authority.AuthorityNode.GenerateAndReply | src/attribute-authority.cpp:126-139 | Nothing if key generation throws; else the stored segments and the reply, as specified |
| Authority.AuthorityNode.ReplyMatching | src/attribute-authority.cpp:87-91 | The loop sends every stored segment of exactly the requested name |
| Authority.AuthorityNode.OnDecryptionKeyRequest | src/attribute-authority.cpp:196-207 | The new state is the specified one in every branch of the handler |
| ParamFetcher.BoundedRetryFromConstruction | src/param-fetcher.cpp:41-72 | From the one call a constructor makes: at most one Interest outstanding, at most 10 sent, at most 11 events, and the run ends in accepted parameters or an exception |
| ParamFetcher.BoundedRetry | src/param-fetcher.cpp:41-95 | The same from any state of such a run, with the measure that bounds what is left |
| ParamFetcher.SingleFetchStep | src/param-fetcher.cpp:41-95 | Every event keeps the phases of a single fetch and decreases the measure |
| ParamFetcher.TenAttempts | src/param-fetcher.cpp:41-72 | From the one call a constructor makes, with failures only: exactly ten Interests, and the tenth failure and no earlier one throws |
| ParamFetcher.FailuresPossible | src/param-fetcher.cpp:64-71 | Such runs of failures, up to the tenth, are possible |
| ParamFetcher.SchemaNames | src/common.hpp:102-103 | Exactly the strings CP-ABE and KP-ABE are schemes |
| ParamFetcher.FailuresOnly | src/param-fetcher.cpp:44-71 | With nacks and timeouts only, a fetch retries up to the limit and exactly the next failure throws |
| ParamFetcher.DataRestoresBudget | src/param-fetcher.cpp:61-61 | After data the next fetch has a full budget again: ten Interests, then an exception |
| ParamFetcher.ReadyOrThrown | src/param-fetcher.cpp:84-89 | With any number of fetches, stored parameters come with a supported ABE type unless an exception was thrown |
| ParamFetcher.Client.FetchPublicParams | src/param-fetcher.cpp:41-56 | Throws at the limit; else counts, and sends one Interest |
| ParamFetcher.Client.OnData | src/param-fetcher.cpp:60-63 | The count restarts and the packet goes to validation |
| ParamFetcher.Client.OnNackOrTimeout | src/param-fetcher.cpp:64-71 | The fetch is repeated |
| ParamFetcher.Client.OnValidated | src/param-fetcher.cpp:82-90 | The type is stored before it is checked; the parameters only if it is supported |
| ParamFetcher.Client.OnRejected | src/param-fetcher.cpp:91-93 | An exception |
| Crypto.SymbolicLibraryIsIdeal | src/algo/abe-support.cpp:183-289 | The assumptions about the cryptographic libraries are consistent for every satisfaction relation |

## Left out

- OpenABE, OpenSSL and the thin wrappers around them: ideal functions; parsing of policy strings is inside them.
- Face, SegmentFetcher, Segmenter, Validator, KeyChain and signatures: splitting and concatenation of segments,
  one outcome per fetch, and one verdict per policy command remain.
- Callbacks that throw or re-enter the consumer, and CK blocks without the expected element: assumed away, as
  the code does not handle them.
- Buffers without a NUL and empty attribute lists at ABE calls: undefined behaviour in the original, so
  preconditions here.
- Authority.AuthorityNode.OnDecryptionKeyRequest: where no certificate is known locally the original looks one
  up on the network and may reply later; here such a request gets no reply.
- The two authority classes are one class with a schema, and their token maps one map of grants; the two tables
  of the producer are two instances of one generic vector. There is no inheritance in the model: the caching
  producer holds the producer it extends, so production by name through a base reference is not covered for it.
- A data name's use in log lines, freshness periods, Interest lifetimes and templates, `handleTimeout` and
  `handleNack` (called by nothing), JSON and trust configuration files, `public-params.cpp` (the same code as
  `private-key.cpp`), examples and build files.
- Validity checks of ndn-cxx on component types and on shortest encodings when decoding: decoding is permissive.
- ParamFetcher.Client.OnNackOrTimeout: one method for the two identical handlers.
- AbeSupport.ABESupport.Decrypt: what a failing library call leaves in its output argument is arbitrary.
