# openjsip core in Dafny

This project models the signalling core of openjsip, a Java implementation of
the SIP nodes of RFC 3261: a location service, a registrar and a proxy, plus
their administration client. The JAIN-SIP stack, RMI, threads and timers are
abstracted away. What is left is modelled and proved in Dafny:

- the binding store;
- the REGISTER procedure;
- the proxy's request and response handling, with its per-transaction bookkeeping;
- the digest check;
- the SNMP statistics table;
- the command-line parser of the administration client.

One module per source file:

| module | file | models |
|---|---|---|
| `Common` | common.dfy | optional values, Java bytes and 32-bit ints, the `java.lang.String` operations the core uses (ASCII case folding, `indexOf`, `Integer.parseInt`) |
| `Sip` | sip.dfy | SIP URIs, headers, requests, responses and transaction states as records, standing for the JAIN-SIP objects |
| `SipStack` | stack.dfy | the part of the JAIN-SIP stack the proxy drives: an outbox of sent messages, a counter of new transaction handles, the scheduled Timer C tasks |
| `SipUtils` | siputils.dfy | `toHexString`, the branch id prefix, URI canonicalisation, the location-service key |
| `Digest` | digest.dfy | `DigestServerAuthenticationMethod`: nonce generation, preferred algorithm, `doAuthenticate` (RFC 2617 section 3.2.2.1), with the hash a parameter |
| `Snmp` | snmp.dfy | `SNMPAssistant`: the counter table (a class over an array), get and get-next |
| `Bindings` | bindings.dfy | `Binding` and its contact header, whose `expires` parameter is the binding's lifetime |
| `UserProfiles` | userprofile.dfy | `UserProfile`: one subscriber and the ordered list of its bindings |
| `LocationServices` | locationservice.dfy | `LocationService`: provisioning, the registration operations and the periodic expiry sweep |
| `Registrars` | registrar.dfy | `Registrar`: the expiry window, `checkAuthorization` and `processRegister` (section 10.3 of RFC 3261) |
| `ResponseContexts` | responsecontext.dfy | `ResponseContext`: stored final responses and the best-response choice (section 16.7 steps 6 and 7 of RFC 3261) |
| `TransactionsMappings` | transactions.dfy | `TransactionsMapping`: the client transactions of one server transaction and their Timer C table |
| `TimerC` | timerc.dfy | `TimerCTask.run`: the Timer C firing rule (section 16.8 of RFC 3261) |
| `ProxyRules` | proxyrules.dfy | the proxy's decisions, on values: validation, route preprocessing, target determination, the edits each forwarded copy gets, branch ids, the response decision tree, the CANCELs due |
| `ProxyState` | proxystate.dfy | the proxy's state as a value (outbox, transactions, SNMP counters, timers) and what a forwarding loop does to it |
| `Proxies` | proxy.dfy | the `Proxy` class: its event handlers and the mutations they perform, each proved against the rules and state functions above |
| `CmdClient` | cmdclient.dfy | `CmdClient`: option and `rmi://host:port/name` parsing and the GET output format |

Pure code is modelled as functions with lemmas. Objects whose fields the
source updates in place are classes: the profile, the location service, the
SNMP table, the mapping, the response context, the proxy and the client.
Their methods are proved against value-level specification functions.

## Model

| member | source | states |
|---|---|---|
| Common.ToInt32 | src/openjsip/remote/locationservice/Binding.java:154 | the `(int)` cast of a `long`: the result is a 32-bit value congruent to the input modulo 2^32, and equal to it when it already fits |
| Common.JavaDiv | src/openjsip/locationservice/LocationService.java:711 | Java's truncating `/`: the remainder is smaller than the divisor and has the sign of the dividend; for non-negative operands it is Euclidean division |
| Common.IndexOf | src/openjsip/CmdClient.java:142-147 | `String.indexOf(char)`: -1 exactly when the character is absent, otherwise the index of its first occurrence |
| Common.ToLower | src/openjsip/SipUtils.java:124-140 | `toLowerCase` on ASCII: same length, each character mapped by the ASCII lower-case rule |
| Common.Trim | src/openjsip/remote/locationservice/Binding.java:164 | `String.trim`: the result is a slice `s[a..b]` of the input where every character before `a` and from `b` on is up to U+0020, and the result neither starts nor ends with such a character (so only white space at the ends is removed, and all of it) |
| Common.IntToStringDenotes | src/openjsip/SipUtils.java:63 | the rendering of every integer is a numeral (an optional sign, then one or more digits) whose value, each digit weighted by its power of ten and negated after '-', is the integer |
| Common.IntToStringParses | src/openjsip/CmdClient.java:152 | `parseInt` of the rendering of every 32-bit integer, negatives included, gives the integer back |
| Common.ParseIntMeaning | src/openjsip/CmdClient.java:152 | `parseInt` succeeds exactly on an optional '+' or '-' followed by one or more decimal digits whose value fits in 32 bits, and then gives that value (negated after '-'); otherwise NumberFormatException |
| Common.ParseIntOfRendering | src/openjsip/CmdClient.java:152 | parsing the decimal rendering of a number up to 2^31-1 gives that number back |
| Bindings.Binding.constructor | src/openjsip/remote/locationservice/Binding.java:61-68 | the key, the header object, the Call-ID and the CSeq are the given ones, and the header's expiry is the 32-bit cast of `expiresTime` |
| Bindings.Binding.SetKey | src/openjsip/remote/locationservice/Binding.java:82-85 | the key becomes the given one |
| Bindings.Binding.SetContactHeader | src/openjsip/remote/locationservice/Binding.java:99-102 | the binding holds the given header object itself, not a copy |
| Bindings.Binding.SetCallId | src/openjsip/remote/locationservice/Binding.java:116-119 | the Call-ID becomes the given one |
| Bindings.Binding.SetCseq | src/openjsip/remote/locationservice/Binding.java:133-136 | the CSeq becomes the given one |
| Bindings.Binding.SetExpiresTime | src/openjsip/remote/locationservice/Binding.java:150-160 | the expiry is written into the shared header object as the 32-bit cast of the `long`, and `getExpiresTime` reads that value back |
| Bindings.ExpiryRoundTrip | src/openjsip/remote/locationservice/Binding.java:141-160 | for any binding and value: reading the expiry back after setting it gives the value when it fits 32 bits, and otherwise a 32-bit value congruent to it modulo 2^32 |
| Bindings.SharedHeader | src/openjsip/remote/locationservice/Binding.java:99-102 | two bindings holding one header object: an expiry set through one is what the other reads |
| UserProfiles.Find | src/openjsip/locationservice/UserProfile.java:103-117 | -1 exactly when no binding's canonical contact URI equals the one sought; otherwise the index of the first binding whose canonical URI equals it |
| UserProfiles.Contacts | src/openjsip/locationservice/UserProfile.java:122-132 | the contacts of the bindings, one per binding, in order |
| UserProfiles.RemoveFirst | src/openjsip/locationservice/UserProfile.java:148-151 | `Vector.remove`: an absent element changes nothing; a present one makes the list one shorter, and every other element stays |
| UserProfiles.RemoveFirstAt | src/openjsip/locationservice/UserProfile.java:148-151 | removing the element at an index that holds its first occurrence drops that index and keeps the order |
| UserProfiles.UserProfile.constructor | src/openjsip/locationservice/UserProfile.java:52-56 | the profile has the given SIP address of record and no binding |
| UserProfiles.UserProfile.GetLogin | src/openjsip/locationservice/UserProfile.java:78-81 | the user part of the address of record |
| UserProfiles.UserProfile.GetPassword | src/openjsip/locationservice/UserProfile.java:86-89 | the password part of the address of record, absent when none was provisioned |
| UserProfiles.UserProfile.GetBinding | src/openjsip/locationservice/UserProfile.java:103-117 | none exactly when no binding's canonical contact URI equals that of the contact, otherwise the first binding that does |
| UserProfiles.UserProfile.GetContactHeaders | src/openjsip/locationservice/UserProfile.java:122-132 | the contacts of every binding, in list order |
| UserProfiles.UserProfile.AddBinding | src/openjsip/locationservice/UserProfile.java:138-142 | the binding is appended unless it is already listed, and nothing else changes |
| UserProfiles.UserProfile.RemoveBinding | src/openjsip/locationservice/UserProfile.java:148-151 | the list becomes `RemoveFirst` of the old list: the first occurrence goes and the others keep their order |
| UserProfiles.UserProfile.RemoveAllBindings | src/openjsip/locationservice/UserProfile.java:156-159 | the list is empty |
| UserProfiles.UniqueHasNoDuplicates | src/openjsip/locationservice/UserProfile.java:138-142 | bindings with pairwise distinct canonical contacts are pairwise distinct bindings |
| UserProfiles.RemoveFirstNoDuplicates | src/openjsip/locationservice/UserProfile.java:148-151 | removal keeps a duplicate-free list duplicate-free and takes out exactly the removed element |
| SipUtils.Hex | src/openjsip/SipUtils.java:87-99 | two lower-case hex digits per byte, high nibble first, taken from the unsigned value of the Java byte |
| SipUtils.ToHexString | src/openjsip/SipUtils.java:87-99 | the loop that fills a `2n` character array through a running position produces exactly `Hex` of the bytes |
| SipUtils.NibblesOfByte | src/openjsip/SipUtils.java:94-95 | the two nibbles the shifts and masks extract make up the unsigned byte, and read back as signed give the original byte |
| SipUtils.UnHexOfHex | src/openjsip/SipUtils.java:87-99 | the hex rendering loses nothing: reading it back gives the same bytes |
| SipUtils.HexInjective | src/openjsip/SipUtils.java:87-99 | different byte strings never render to the same text |
| SipUtils.BranchId | src/openjsip/SipUtils.java:57-81 | every branch starts with the `z9hG4bK` cookie; with MD5 the rest is the lower-case hex of the digest of the random number and the time, twice as long as the digest; without MD5 the rest is the fixed fallback text |
| SipUtils.Canonicalize | src/openjsip/SipUtils.java:107-118 | a SIP URI loses exactly its URI parameters, any other URI is unchanged, and the URI stays SIP exactly when it was |
| SipUtils.CanonicalizeIdempotent | src/openjsip/SipUtils.java:107-118 | canonicalising twice is canonicalising once |
| SipUtils.CanonicalizeEqual | src/openjsip/SipUtils.java:107-118 | two SIP URIs have the same canonical form exactly when they differ at most in their parameters |
| SipUtils.LocationKey | src/openjsip/SipUtils.java:146-162 | a URI has a key exactly when it is a SIP URI; the key is the `scheme:[user@]host` text, so parameters, password, port and header fields are dropped |
| SipUtils.KeyIgnoresDecorations | src/openjsip/SipUtils.java:146-162 | two SIP URIs with the same scheme, user and host have the same key |
| SipUtils.KeyIsCaseSensitive | src/openjsip/SipUtils.java:146-162 | the host is compared as written: for SIP URIs with no "@" in user or host, hosts that differ in any way, letter case included, give different keys |
| SipUtils.KeyDeterminesAor | src/openjsip/SipUtils.java:146-162 | conversely, when neither user nor host contains '@', equal keys mean equal scheme, user and host |
| SipUtils.RequestKey | src/openjsip/SipUtils.java:124-140 | no key without a To header; otherwise a key exactly when the To URI is a SIP URI, and then the key of that URI |
| TimerC.TimerCTask.constructor | src/openjsip/proxy/TimerCTask.java:39-45 | the task remembers its client transaction and the proxy's stack and gauges |
| TimerC.TimerCTask.Run | src/openjsip/proxy/TimerCTask.java:47-114 | a CANCEL goes out, on one new client transaction, only when the transaction is in PROCEEDING and nothing fails; in any other state nothing is sent; a new client transaction is allocated (the transaction counter goes up by one) exactly when the state is PROCEEDING and creating the CANCEL and its transaction succeeds, and the client-transaction gauge goes down by one exactly then |
| TransactionsMappings.TransactionsMapping.constructor | src/openjsip/proxy/TransactionsMapping.java:72-80 | a new mapping holds the server transaction, no client transaction, no timer and a fresh empty response context for the request |
| TransactionsMappings.TransactionsMapping.Contains | src/openjsip/proxy/TransactionsMapping.java:115-118 | true exactly when the client transaction is mapped |
| TransactionsMappings.TransactionsMapping.HasClientTransactions | src/openjsip/proxy/TransactionsMapping.java:110-113 | true exactly when some client transaction is mapped |
| TransactionsMappings.TransactionsMapping.GetClientTransactionsArray | src/openjsip/proxy/TransactionsMapping.java:98-103 | a new array holding every mapped client transaction exactly once and nothing else |
| TransactionsMappings.TransactionsMapping.AddClientTransaction | src/openjsip/proxy/TransactionsMapping.java:120-123 | set insertion: the transaction is added and adding it twice is adding it once |
| TransactionsMappings.TransactionsMapping.RemoveMapping | src/openjsip/proxy/TransactionsMapping.java:125-128 | only that client transaction leaves the set |
| TransactionsMappings.TransactionsMapping.RegisterTimerC | src/openjsip/proxy/TransactionsMapping.java:136-142 | as written: a timer is stored only when there is one and its client transaction is not yet mapped |
| TransactionsMappings.TransactionsMapping.RegisterTimerCIntended | src/openjsip/proxy/TransactionsMapping.java:136-142 | the intended guard: a timer is stored unless that transaction already has one |
| TransactionsMappings.TransactionsMapping.CancelTimerC | src/openjsip/proxy/TransactionsMapping.java:148-156 | a stored timer is cancelled and forgotten; without one nothing changes, and afterwards the transaction has no timer either way |
| TransactionsMappings.AddThenRegister | src/openjsip/proxy/Proxy.java:2263-2285 | the order the proxy uses (add the client transaction, then register its timer) never stores the timer |
| TransactionsMappings.AddThenRegisterIntended | src/openjsip/proxy/Proxy.java:2263-2285 | with the intended guard the same order stores the timer |
| TransactionsMappings.RearmAsWritten | src/openjsip/proxy/Proxy.java:2399-2412 | as written, the Timer C reset on a provisional response cancels the running timer and stores nothing in its place |
| TransactionsMappings.RearmIntended | src/openjsip/proxy/Proxy.java:2399-2412 | with the intended guard the reset cancels the old timer and stores the new one |
| Snmp.SNMPAssistant.constructor | src/openjsip/snmp/SNMPAssistant.java:32-36 | the assistant holds the community name and a fresh table of the given OIDs with their initial values |
| Snmp.SNMPAssistant.FindSnmpOID | src/openjsip/snmp/SNMPAssistant.java:258-268 | -1 exactly when the OID is not in the table, otherwise the first row holding it |
| Snmp.SNMPAssistant.GetSnmpOIDValue | src/openjsip/snmp/SNMPAssistant.java:270-274 | null exactly when the OID is unknown, otherwise the value of its first row |
| Snmp.SNMPAssistant.GetSnmpInteger | src/openjsip/snmp/SNMPAssistant.java:205-216 | the stored value of a known OID, the default for an unknown one, and the table does not change |
| Snmp.SNMPAssistant.SetSnmpInteger | src/openjsip/snmp/SNMPAssistant.java:218-230 | the row of a known OID takes the new value and every other row stays; an unknown OID changes nothing |
| Snmp.SNMPAssistant.IncrementSnmpInteger | src/openjsip/snmp/SNMPAssistant.java:232-243 | the row of a known OID goes up by one and every other row stays; an unknown OID changes nothing, since the default object it gets is kept by nobody |
| Snmp.SNMPAssistant.DecrementSnmpInteger | src/openjsip/snmp/SNMPAssistant.java:245-256 | the same, down by one |
| Snmp.SNMPAssistant.GetAnswer | src/openjsip/snmp/SNMPAssistant.java:79-94 | a get answer holds only requested OIDs this table knows, each with its value, and every requested known OID with its value |
| Snmp.SNMPAssistant.ProcessRequest | src/openjsip/snmp/SNMPAssistant.java:61-104 | a foreign community and any request other than a get are answered with nothing; a get from the right community gets `GetAnswer` of its OIDs |
| Snmp.SNMPAssistant.NextIndex | src/openjsip/snmp/SNMPAssistant.java:139-202 | the row a get-next answers always exists in the table |
| Snmp.SNMPAssistant.ProcessGetNextRequest | src/openjsip/snmp/SNMPAssistant.java:139-202 | a foreign community or another request type gets nothing; otherwise the prefix scan of each requested OID gives `GetNextAnswer` |
| Snmp.NextOfExact | src/openjsip/snmp/SNMPAssistant.java:139-202 | get-next of an OID in the table, not on its last row and with no earlier row it prefixes, answers the row right after it |
| Snmp.NextOfPrefix | src/openjsip/snmp/SNMPAssistant.java:160-197 | get-next of a strict prefix of the first row it prefixes, that row not being the last, answers that row itself |
| Snmp.NextOfLast | src/openjsip/snmp/SNMPAssistant.java:139-202 | when no row matches, or the first match is the last row, get-next answers nothing |
| Digest.LoadAlgorithms | src/openjsip/auth/DigestServerAuthenticationMethod.java:46-55 | the constructor fails exactly when the provider lacks one of the named algorithms; otherwise the table holds exactly the named algorithms with the provider's implementations |
| Digest.H | src/openjsip/auth/DigestServerAuthenticationMethod.java:122-127 | H(data) of RFC 2617 section 3.2.1 is lower-case hex, twice as long as the digest |
| Digest.DigestServerAuthenticationMethod.constructor | src/openjsip/auth/DigestServerAuthenticationMethod.java:46-55 | the object holds the default realm and the algorithm table, and has drawn no random value yet |
| Digest.DigestServerAuthenticationMethod.GetPreferredAlgorithm | src/openjsip/auth/DigestServerAuthenticationMethod.java:68-71 | none exactly when the table is empty, and otherwise an algorithm the table holds |
| Digest.DigestServerAuthenticationMethod.GenerateNonce | src/openjsip/auth/DigestServerAuthenticationMethod.java:78-90 | an unknown algorithm gives "" and draws no random value; a known one gives the hex digest of the time and the next random value, and draws exactly one |
| Digest.DigestServerAuthenticationMethod.ChosenAlgorithm | src/openjsip/auth/DigestServerAuthenticationMethod.java:113-115 | a credential naming an algorithm uses that one |
| Digest.DigestServerAuthenticationMethod.DoAuthenticate | src/openjsip/auth/DigestServerAuthenticationMethod.java:100-143 | authorized exactly when the credential's user name is `user`, it carries a digest URI, names (or defaults to) a known algorithm, and its response is the RFC 2617 request-digest over the realm (the default when absent), the upper-cased method and the URI text; no preferred algorithm exactly when none is named and the table is empty |
| Digest.NonceShape | src/openjsip/auth/DigestServerAuthenticationMethod.java:78-90 | a nonce is lower-case hex, twice as long as the digest, and decodes back to the digest of the time and the random value |
| Digest.KdLayout | src/openjsip/auth/DigestServerAuthenticationMethod.java:129-136 | the string the code builds step by step is the KD data of RFC 2617 section 3.2.2.1 |
| Digest.MethodCaseIgnored | src/openjsip/auth/DigestServerAuthenticationMethod.java:100-143 | the letter case of the request method never changes the verdict |
| Digest.DefaultRealm | src/openjsip/auth/DigestServerAuthenticationMethod.java:100-143 | a credential without a realm is judged as if it named the default realm |
| Digest.HonestClientAuthorized | src/openjsip/auth/DigestServerAuthenticationMethod.java:100-143 | a client that knows the password and answers with the RFC 2617 request-digest (no qop) is authorized |
| Digest.RejectsWrongUser | src/openjsip/auth/DigestServerAuthenticationMethod.java:100-143 | without a digest URI, or under another user name, nothing is authorized |
| ResponseContexts.Matching | src/openjsip/proxy/ResponseContext.java:78-116 | the responses matching a class or a code, in their original order, and no others |
| ResponseContexts.MatchingHead | src/openjsip/proxy/ResponseContext.java:78-116 | the first element of the filter is the first matching response |
| ResponseContexts.FirstPresent | src/openjsip/proxy/ResponseContext.java:167-172 | the first preferred code that some stored 4xx carries; none exactly when none of them was received |
| ResponseContexts.FirstPresentIsFirst | src/openjsip/proxy/ResponseContext.java:167-172 | a preferred code is chosen only when no code before it in the list was received |
| ResponseContexts.Aggregated | src/openjsip/proxy/ResponseContext.java:205-247 | only a 401 or a 407 gathers challenges, and aggregation never changes the status |
| ResponseContexts.BestResponse | src/openjsip/proxy/ResponseContext.java:124-198 | null exactly when the choice is null; otherwise a response on the request with the chosen code |
| ResponseContexts.GatherTouchesOnlyChallenges | src/openjsip/proxy/ResponseContext.java:205-247 | gathering for a 401 changes only WWW-Authenticate, and only by appending |
| ResponseContexts.GatherCollects | src/openjsip/proxy/ResponseContext.java:205-247 | every WWW-Authenticate value of every stored 401 ends up in the aggregated 401 |
| ResponseContexts.GatherOnlyFromStored | src/openjsip/proxy/ResponseContext.java:205-247 | every value in the aggregated 401 was in the new response or in a stored 401 |
| ResponseContexts.Aggregated401 | src/openjsip/proxy/ResponseContext.java:171-174 | the 401 the proxy answers holds exactly the WWW-Authenticate values of the stored 401 responses and no Proxy-Authenticate values |
| ResponseContexts.ProxyGatherTouchesOnlyChallenges | src/openjsip/proxy/ResponseContext.java:205-247 | gathering for a 407 changes only Proxy-Authenticate, and only by appending |
| ResponseContexts.ProxyGatherCollects | src/openjsip/proxy/ResponseContext.java:205-247 | every Proxy-Authenticate value of every stored 407 ends up in the aggregated 407 |
| ResponseContexts.ProxyGatherOnlyFromStored | src/openjsip/proxy/ResponseContext.java:205-247 | every value in the aggregated 407 was in the new response or in a stored 407 |
| ResponseContexts.Aggregated407 | src/openjsip/proxy/ResponseContext.java:171-174 | the 407 the proxy answers holds exactly the Proxy-Authenticate values of the stored 407 responses and no WWW-Authenticate values |
| ResponseContexts.AggregatedOtherCodes | src/openjsip/proxy/ResponseContext.java:205-247 | aggregation leaves any response other than a 401 or a 407 unchanged |
| ResponseContexts.NothingReceived | src/openjsip/proxy/ResponseContext.java:131-132 | with no final response stored, the best response is a 408 on the request |
| ResponseContexts.SixWins | src/openjsip/proxy/ResponseContext.java:139-141 | any 6xx wins over every other class, with the code of the first 6xx stored |
| ResponseContexts.TwoWins | src/openjsip/proxy/ResponseContext.java:150-152 | without a 6xx, the first 2xx wins |
| ResponseContexts.ThreeWins | src/openjsip/proxy/ResponseContext.java:154-156 | without a 6xx or a 2xx, the first 3xx wins |
| ResponseContexts.PreferredCodeWins | src/openjsip/proxy/ResponseContext.java:164-172 | when the 4xx class is chosen, the first of 401, 407, 415, 420, 484 that was received wins, and its challenges are aggregated |
| ResponseContexts.FirstFourWins | src/openjsip/proxy/ResponseContext.java:164-174 | in the 4xx class without a preferred code, the first 4xx wins |
| ResponseContexts.OnlyUnavailable | src/openjsip/proxy/ResponseContext.java:187-192 | in the 5xx class, when every 5xx is a 503 the proxy answers 500 |
| ResponseContexts.FirstFiveWins | src/openjsip/proxy/ResponseContext.java:187-194 | in the 5xx class with any 5xx other than 503, the first 5xx wins |
| ResponseContexts.NoChoice | src/openjsip/proxy/ResponseContext.java:124-198 | null comes back exactly when responses were stored but none has a class from 2 to 6 |
| ResponseContexts.ChoiceIsFinal | src/openjsip/proxy/ResponseContext.java:124-198 | when every stored code is from 200 to 699, a response is always chosen and its code is in that range |
| ResponseContexts.ResponseContext.constructor | src/openjsip/proxy/ResponseContext.java:56-60 | a new context holds its request and no final response |
| ResponseContexts.ResponseContext.AddFinalResponse | src/openjsip/proxy/ResponseContext.java:66-70 | a final response (status 200 to 699, the stack's `isFinalResponse`) is appended and any other is ignored |
| ResponseContexts.ResponseContext.GetBestResponse | src/openjsip/proxy/ResponseContext.java:124-198 | the loops compute exactly `BestResponse` of the stored responses |
| ResponseContexts.ResponseContext.PreferredResponse | src/openjsip/proxy/ResponseContext.java:167-172 | the loop over the preferred codes gives the code of the first match of the first preferred code received, or the first 4xx |
| ResponseContexts.ResponseContext.AggregateAuthHeaders | src/openjsip/proxy/ResponseContext.java:205-247 | the loop computes exactly `Aggregated` of the response over the stored responses |
| ResponseContexts.GetResponsesByStatusCodeClass | src/openjsip/proxy/ResponseContext.java:78-93 | null when no response has that class, otherwise exactly those that do, in order |
| ResponseContexts.GetResponsesByStatusCode | src/openjsip/proxy/ResponseContext.java:101-116 | null when no response has that code, otherwise exactly those that do, in order |
| LocationServices.SettingIsTrimmedProperty | src/openjsip/locationservice/LocationService.java:369 | a string setting is `getProperty(name, default).trim()` |
| LocationServices.DefaultDomainLower | src/openjsip/locationservice/LocationService.java:239 | the default domain is in lower case, and it is "openjsip.net" when not configured |
| LocationServices.DefaultDomainAsRead | src/openjsip/locationservice/LocationService.java:239 | the default domain is the configured text trimmed and lower-cased |
| LocationServices.IntSetting | src/openjsip/locationservice/LocationService.java:395-403 | the configured value, trimmed, when it parses as a 32-bit integer; the default when it is missing or does not parse |
| LocationServices.IntSettingAsRead | src/openjsip/locationservice/LocationService.java:395-403 | parsing `getProperty(name, toString(default)).trim()` gives the same value, since the default's own text parses back to it |
| LocationServices.MaxUsers | src/openjsip/locationservice/LocationService.java:255-266 | the number of `user.<n>` entries read is `user.max` but never fewer than 100 |
| LocationServices.UpdatePeriod | src/openjsip/locationservice/LocationService.java:395-406 | the sweep period is at least one second, 5 by default |
| LocationServices.SnmpEnabledAsRead | src/openjsip/locationservice/LocationService.java:355 | the SNMP agent runs exactly when the setting, trimmed, equals "yes" ignoring case; it defaults to "yes" |
| LocationServices.EntryAor | src/openjsip/locationservice/LocationService.java:279-321 | every address of record an entry yields is a SIP URI whose host is in lower case |
| LocationServices.LowerHost | src/openjsip/locationservice/LocationService.java:300 | only the host is lower-cased; the rest of the SIP URI stays |
| LocationServices.EntryWithoutDomain | src/openjsip/locationservice/LocationService.java:286-290 | an entry without '@' is read as a user of the default domain |
| LocationServices.EnterStores | src/openjsip/locationservice/LocationService.java:300-314 | an accepted address of record is stored under its key and its host becomes a served domain; what was stored before stays |
| LocationServices.ProvisionGrows | src/openjsip/locationservice/LocationService.java:279-321 | reading further entries never loses a key or a domain |
| LocationServices.ProvisionedShape | src/openjsip/locationservice/LocationService.java:279-321 | every stored address of record is a SIP URI with a lower-case host that is a served domain, stored under its own key |
| LocationServices.ProvisionedComplete | src/openjsip/locationservice/LocationService.java:279-321 | every accepted entry up to the limit has its key in the table and its host among the domains |
| LocationServices.ProvisionLoopWraps | src/openjsip/locationservice/LocationService.java:279 | with `user.max` parsing to 2147483647 the source's loop bound is 2147483647, every 32-bit index satisfies `index <= maxUsers`, and `index++` past the bound wraps to -2147483648, so the loop never ends (see Findings) |
| LocationServices.ProvisionTable | src/openjsip/locationservice/LocationService.java:279-321 | the provisioning loop over indices 1 to `maxUsers`, ending after `maxUsers` (the corrected loop, see Findings), builds exactly the table and domain set of the entries, with one fresh, empty profile per key |
| LocationServices.RemoveContactAt | src/openjsip/locationservice/LocationService.java:535-547 | removal is a no-op when no binding has the contact, and otherwise cuts out the binding `getBinding` finds |
| LocationServices.RemoveContactSpec | src/openjsip/locationservice/LocationService.java:535-547 | on a list with one binding per contact, removal takes out exactly the bindings of that contact and keeps every other one |
| LocationServices.ReplaceSpec | src/openjsip/locationservice/LocationService.java:517-530 | after `updateRegistration` exactly one binding has the contact: the new one, last in the list; every binding of another contact is still there, and nothing else is |
| LocationServices.Aged | src/openjsip/locationservice/LocationService.java:733-736 | aging a binding changes only its expiry, the 32-bit cast of the expiry minus the elapsed seconds |
| LocationServices.SweepPositive | src/openjsip/locationservice/LocationService.java:729-746 | every binding that survives a sweep has a positive expiry |
| LocationServices.SweepConcat | src/openjsip/locationservice/LocationService.java:729-746 | the sweep works binding by binding, so survivors keep their relative order |
| LocationServices.SweepSingle | src/openjsip/locationservice/LocationService.java:736-746 | a binding survives exactly when its aged expiry is positive |
| LocationServices.SweepFrom | src/openjsip/locationservice/LocationService.java:729-746 | every survivor is an aged binding of the list |
| LocationServices.SweepUnique | src/openjsip/locationservice/LocationService.java:729-746 | the sweep keeps a list free of two bindings of one contact |
| LocationServices.SweepNoTime | src/openjsip/locationservice/LocationService.java:711-746 | a sweep after no elapsed second keeps every binding with a positive 32-bit expiry |
| LocationServices.VisitBinding | src/openjsip/locationservice/LocationService.java:731-746 | one visit of the inner loop: binding `k` is aged in place and removed when no longer positive, and the list is then the sweep of the first `k + 1` bindings followed by the rest |
| LocationServices.DropExpired | src/openjsip/locationservice/LocationService.java:739-743 | `removeBinding` of an expired binding takes out that one and no survivor before it |
| LocationServices.ExpireBindings | src/openjsip/locationservice/LocationService.java:729-746 | the inner loop with its `i--` step leaves exactly `Sweep` of the profile's bindings |
| LocationServices.Registered | src/openjsip/locationservice/LocationService.java:517-530 | the new binding carries the given key, Call-ID and CSeq and the contact with its expiry set to the 32-bit cast |
| LocationServices.ForgetContact | src/openjsip/locationservice/LocationService.java:535-547 | on one profile, the binding of that contact, if any, is found and removed |
| LocationServices.ReplaceBinding | src/openjsip/locationservice/LocationService.java:517-530 | on one profile, the binding of that contact goes and the new binding is appended |
| LocationServices.UniqueAfterReplace | src/openjsip/locationservice/LocationService.java:517-530 | `updateRegistration` keeps at most one binding per canonical contact for every subscriber |
| LocationServices.UniqueAfterRemove | src/openjsip/locationservice/LocationService.java:535-547 | `removeBinding` keeps at most one binding per canonical contact for every subscriber |
| LocationServices.UniqueAfterSweep | src/openjsip/locationservice/LocationService.java:706-763 | the sweep keeps at most one binding per canonical contact for every subscriber |
| LocationServices.SweepAll | src/openjsip/locationservice/LocationService.java:720-747 | after a sweep every subscriber is still there, with its own list swept |
| LocationServices.TotalRemove | src/openjsip/locationservice/LocationService.java:722-727 | the binding count does not depend on which subscriber is counted first |
| LocationServices.TotalAdd | src/openjsip/locationservice/LocationService.java:722-727 | counting one more subscriber adds its bindings to the count |
| LocationServices.LocationService.Snapshot | src/openjsip/locationservice/LocationService.java:517-580 | the bindings of every subscriber of the table, and no other key |
| LocationServices.LocationService.constructor | src/openjsip/locationservice/LocationService.java:231-425 | as written: the configuration is read, one empty profile per accepted entry is provisioned, and the service has an SNMP assistant exactly when the agent is enabled, with both gauges at 0; the sweep timer runs from `now` |
| LocationServices.LocationService.WithTable | src/openjsip/locationservice/LocationService.java:356-372 | the corrected constructor: the same service, but the SNMP table is always created |
| LocationServices.LocationService.GetProfile | src/openjsip/locationservice/LocationService.java:483-488 | UserNotFound exactly for an unknown key, otherwise that key's profile |
| LocationServices.LocationService.GetUsername | src/openjsip/locationservice/LocationService.java:501-504 | UserNotFound exactly for an unknown key, otherwise the user part of its address of record |
| LocationServices.LocationService.GetPassword | src/openjsip/locationservice/LocationService.java:509-512 | UserNotFound exactly for an unknown key, otherwise the password of its address of record, null when none was provisioned |
| LocationServices.LocationService.UpdateRegistration | src/openjsip/locationservice/LocationService.java:517-530 | UserNotFound and no change for an unknown key; otherwise only that subscriber's list changes, to `Replace` with the new binding, and contacts stay unique |
| LocationServices.LocationService.RemoveBinding | src/openjsip/locationservice/LocationService.java:535-547 | UserNotFound and no change for an unknown key; otherwise only that subscriber's list changes, losing the binding of that contact |
| LocationServices.LocationService.RemoveAllBindings | src/openjsip/locationservice/LocationService.java:552-560 | UserNotFound and no change for an unknown key; otherwise that subscriber is left without bindings and nobody else changes |
| LocationServices.LocationService.GetContactHeaders | src/openjsip/locationservice/LocationService.java:565-570 | UserNotFound exactly for an unknown key, otherwise the contacts of its bindings in order |
| LocationServices.LocationService.GetBinding | src/openjsip/locationservice/LocationService.java:575-580 | UserNotFound exactly for an unknown key; null exactly when no binding has the canonical contact, otherwise the first that does |
| LocationServices.LocationService.CheckBindings | src/openjsip/locationservice/LocationService.java:706-763 | a firing of a stopped timer changes nothing; otherwise dt is the truncating quotient of the elapsed milliseconds by 1000, the previous check time becomes the second clock reading, every subscriber's list is swept by dt, and with an SNMP table the gauges become the profile count and the binding count taken before the sweep; without one the timer stops |
| LocationServices.LocationService.SweepProfiles | src/openjsip/locationservice/LocationService.java:714-747 | the loop over the profiles counts every profile and every binding before removal, and sweeps every list |
| LocationServices.LocationService.SweepProfile | src/openjsip/locationservice/LocationService.java:722-746 | one profile: its bindings are counted, then only its list is swept |
| LocationServices.LocationService.SetGauges | src/openjsip/locationservice/LocationService.java:749-754 | the two gauges take the counts and no binding changes |
| LocationServices.FirstSweepAsWritten | src/openjsip/locationservice/LocationService.java:356-372 | as written, with the SNMP agent disabled the first sweep stops the timer, so bindings never expire afterwards |
| LocationServices.FirstSweep | src/openjsip/locationservice/LocationService.java:356-372 | with the table always created the timer keeps running after its first firing, whatever the configuration |
| Registrars.ExpiryWindowAsWritten | src/openjsip/registrar/Registrar.java:622-623 | as written in `int` arithmetic: MIN is max(5, min) and MAX is max(MIN + 5, max), with MIN + 5 wrapping around near the largest `int` |
| Registrars.ExpiryWindow | src/openjsip/registrar/Registrar.java:622-623 | the corrected window is well formed (MIN at least 5, MAX at least MIN + 5) and equals the window as written for every minimum not within 5 of the largest `int` |
| Registrars.WindowOverflows | src/openjsip/registrar/Registrar.java:622-623 | a configured minimum of 2147483647 with the default maximum gives the window [2147483647, 3600], which is not well formed |
| Registrars.OverflowedWindowClamps | src/openjsip/registrar/Registrar.java:1160-1161 | with that window every non-zero expiry is clamped to 3600 seconds, below the configured minimum |
| Registrars.WindowOf | src/openjsip/registrar/Registrar.java:601-623 | the window is built from the two settings, 60 and 3600 by default, as written; unless the minimum is within 5 of the largest `int` it is well formed and equals the corrected window |
| Registrars.ConfiguredOverflow | src/openjsip/registrar/Registrar.java:601-623 | a configuration whose minimum parses to 2147483647 and with no maximum yields the overflowed window |
| Registrars.DefaultWindow | src/openjsip/registrar/Registrar.java:601-623 | without either setting the window is [60, 3600] |
| Registrars.Clamp | src/openjsip/registrar/Registrar.java:1160-1161 | zero stays zero; a non-zero expiry lands inside a non-empty window, and one already inside stays as it is |
| Registrars.ClampIdempotent | src/openjsip/registrar/Registrar.java:1160-1161 | clamping twice is clamping once |
| Registrars.RequestedExpiry | src/openjsip/registrar/Registrar.java:1149-1182 | the expiry written into a contact is the requested one (the contact's `expires`, else the Expires header, else MAX) clamped once: zero exactly when zero was asked for, and otherwise inside the window |
| Registrars.Fix | src/openjsip/registrar/Registrar.java:878-887 | without a domain the request is used as is; with one, the clone fails exactly for a non-SIP Request-URI or a missing To header, and otherwise differs from the request only in the Request-URI host and, for a SIP To URI, the To host, which become the domain |
| Registrars.Forbidden | src/openjsip/registrar/Registrar.java:929-934 | the 403 reply names the unserved host in its reason phrase |
| Registrars.AorCheck | src/openjsip/registrar/Registrar.java:1040-1060 | an exception exactly without a To header; a key exactly when the To URI is a SIP URI whose host equals the Request-URI host ignoring case, and then it is the To URI's key |
| Registrars.StripDomain | src/openjsip/registrar/Registrar.java:1311-1315 | the text before the first '@', with no '@' in it; a name without '@' is kept whole |
| Registrars.VerdictCheck | src/openjsip/registrar/Registrar.java:1317-1318 | passed exactly when the digest check authorizes, failed exactly when it does not |
| Registrars.ClaimOf | src/openjsip/registrar/Registrar.java:1293-1316 | a claim carries the request's own Authorization credentials, with a user name, and the user part of that name |
| Registrars.CheckAuthorizationAsWritten | src/openjsip/registrar/Registrar.java:1293-1321 | as written, a user name containing '@' is never accepted, whatever the digest |
| Registrars.CheckAuthorization | src/openjsip/registrar/Registrar.java:1293-1321 | the corrected check passes exactly when the subscriber exists, its user is the header's name up to any '@' and the digest over the header's name and the subscriber's password (null read as "") is right; no such user exactly for an unknown subscriber; no Authorization header fails |
| Registrars.AuthorizationAgreesWithoutDomain | src/openjsip/registrar/Registrar.java:1293-1321 | for user names without '@' the corrected check and the check as written agree |
| Registrars.QualifiedNameAccepted | src/openjsip/registrar/Registrar.java:1311-1318 | a client sending "user@domain" with the right digest is accepted by the corrected check and refused by the check as written |
| Registrars.Challenged | src/openjsip/registrar/Registrar.java:985-996 | the 401 carries one WWW-Authenticate: Digest, the default realm, the new nonce, empty opaque, stale false, the preferred algorithm |
| Registrars.Adjusted | src/openjsip/registrar/Registrar.java:1165-1182 | only the contact's expiry changes, to the expiry chosen for it |
| Registrars.AdjustedAll | src/openjsip/registrar/Registrar.java:1165-1182 | one adjusted contact per Contact header, in order |
| Registrars.AdjustedAllowed | src/openjsip/registrar/Registrar.java:1149-1182 | inside a well-formed window every written expiry is 0 or lies in the window |
| Registrars.Written | src/openjsip/registrar/Registrar.java:1219-1231 | a contact with expiry 0 leaves no binding; any other leaves the new binding with its expiry, Call-ID and CSeq |
| Registrars.StalePastHead | src/openjsip/registrar/Registrar.java:1199-1216 | past a first binding of another contact, staleness is decided by the rest of the list |
| Registrars.StaleAtHead | src/openjsip/registrar/Registrar.java:1199-1216 | at the first binding of the contact, the request is stale exactly when it has the same Call-ID and a CSeq not above the stored one |
| Registrars.ContactStepAsLookup | src/openjsip/registrar/Registrar.java:1186-1238 | one contact: 400 and no change when its binding is stale, otherwise its binding is removed and, unless the expiry is 0, the new one appended |
| Registrars.StepAsServiceCalls | src/openjsip/registrar/Registrar.java:1219-1231 | the same with the location service's own calls: `removeBinding` for expiry 0, `updateRegistration` otherwise |
| Registrars.StepFailure | src/openjsip/registrar/Registrar.java:1211-1216 | a contact fails exactly when its binding is stale, and then with 400 and no change |
| Registrars.RemoveContactSubset | src/openjsip/registrar/Registrar.java:1225 | removing a contact's binding adds nothing to the list |
| Registrars.StepWithinWindow | src/openjsip/registrar/Registrar.java:1165-1231 | after one contact every binding of the subscriber was there before or has an expiry inside the window |
| Registrars.StepRecordsContact | src/openjsip/registrar/Registrar.java:1219-1231 | after an accepted contact: with expiry 0 no binding of it is left, otherwise exactly one is, last, with the expiry, Call-ID and CSeq |
| Registrars.StepUnique | src/openjsip/registrar/Registrar.java:1219-1231 | one contact keeps the subscriber's contacts unique |
| Registrars.FailureKeepsEarlierChanges | src/openjsip/registrar/Registrar.java:1165-1238 | when the contacts fail, one of them was stale against what the contacts before it left; the reply is 400 and their changes stay |
| Registrars.FailureSticks | src/openjsip/registrar/Registrar.java:1165-1238 | once a contact has failed, later contacts change nothing |
| Registrars.ApplyWithinWindow | src/openjsip/registrar/Registrar.java:1165-1238 | after all the contacts every binding was there before or lies inside the window |
| Registrars.ApplyUnique | src/openjsip/registrar/Registrar.java:1165-1238 | the contacts never give the subscriber two bindings of one contact |
| Registrars.WildcardAt | src/openjsip/registrar/Registrar.java:1097-1104 | the index of the first wildcard Contact, or the number of contacts when there is none |
| Registrars.Ok | src/openjsip/registrar/Registrar.java:1260-1273 | the 200 reply lists the given contacts and has a Date header |
| Registrars.Listing | src/openjsip/registrar/Registrar.java:1248-1273 | the listing changes nothing; 200 with the subscriber's contacts exactly for a known key, 404 otherwise |
| Registrars.ContactsPhase | src/openjsip/registrar/Registrar.java:1165-1273 | the contacts loop followed by the listing, or by the failure reply, is the whole registration phase |
| Registrars.RegistrationKeepsOthers | src/openjsip/registrar/Registrar.java:1097-1273 | only the subscriber's own bindings change; an unknown subscriber gets 400 or 404 and nothing changes |
| Registrars.RegistrationReply | src/openjsip/registrar/Registrar.java:1097-1273 | the reply is 200, 400 or 404, and a 200 lists exactly the subscriber's bindings as now stored |
| Registrars.RegistrationWithinWindow | src/openjsip/registrar/Registrar.java:1097-1273 | every stored binding of the subscriber was there before or has an expiry inside the window |
| Registrars.WildcardRule | src/openjsip/registrar/Registrar.java:1097-1127 | with a wildcard Contact anywhere, the request succeeds exactly when it is the only Contact, `Expires: 0` is present and the subscriber exists, and then all its bindings are gone; otherwise nothing changes |
| Registrars.QueryChangesNothing | src/openjsip/registrar/Registrar.java:1248-1273 | a REGISTER without Contact changes nothing and lists the subscriber's bindings |
| Registrars.RegistrationUnique | src/openjsip/registrar/Registrar.java:1097-1273 | no subscriber gets two bindings of one contact |
| Registrars.Registrar.constructor | src/openjsip/registrar/Registrar.java:316-666 | the window and the authentication flag come from the configuration, and the digest method is for the default domain with MD5 as its only algorithm |
| Registrars.Registrar.OverriddenDomain | src/openjsip/registrar/Registrar.java:730-737 | the default domain exactly when the Request-URI is a SIP URI naming one of the interfaces, otherwise none |
| Registrars.Registrar.Screen | src/openjsip/registrar/Registrar.java:917-957 | an exception exactly when the clone fails; a rejection is a reply on the request as received, 420 naming the Proxy-Require values; admission means a SIP Request-URI in a served domain and no Proxy-Require |
| Registrars.Registrar.OverrideIsServed | src/openjsip/registrar/Registrar.java:730-737 | a REGISTER addressed to one of the interfaces is never refused for its domain: the only early rejection left is 420 |
| Registrars.Registrar.ScreenOrder | src/openjsip/registrar/Registrar.java:917-957 | the first checks come in order, 400, then 403, then 420, and admission is exactly passing all three |
| Registrars.Registrar.ProcessRegister | src/openjsip/registrar/Registrar.java:869-1274 | the checks in order, the first failing one deciding the reply (400, 403, 420, 500, 401 with its challenge, 404, 404); a nonce is drawn only for a 401; the store changes only once authentication has passed, and then exactly as `Registration` says, keeping contacts unique |
| Registrars.Registrar.ProcessRequestEvent | src/openjsip/registrar/Registrar.java:718-759 | only REGISTER is answered and nothing else changes the store or draws a nonce; a REGISTER addressed to an interface is processed for the default domain and never gets 403; an exception ends in 500 |
| Registrars.Registrar.Challenge | src/openjsip/registrar/Registrar.java:983-996 | without any algorithm an exception and no draw; otherwise the 401 with the nonce from exactly one draw |
| Registrars.Registrar.RegisterBindings | src/openjsip/registrar/Registrar.java:1097-1273 | the contacts of the request, then the listing, change the store exactly as `Registration` describes |
| Registrars.Registrar.RemoveAllContacts | src/openjsip/registrar/Registrar.java:1097-1127 | the wildcard path matches `Registration`: 400 unless it is the only Contact with `Expires: 0`, 404 for an unknown subscriber, otherwise every binding goes |
| Registrars.Registrar.ListBindings | src/openjsip/registrar/Registrar.java:1248-1273 | the reply is the `Listing` of the current store |
| Registrars.Registrar.ApplyContacts | src/openjsip/registrar/Registrar.java:1165-1238 | the loop stops at the first failing contact: 404 at once for an unknown subscriber, otherwise the store becomes `ApplyFirst` of the contacts |
| Registrars.Registrar.RegisterContact | src/openjsip/registrar/Registrar.java:1165-1238 | one Contact header: 404 for an unknown subscriber, otherwise only that subscriber's list changes, by `ContactStep` of the adjusted contact |
| Registrars.Registrar.FindWildcard | src/openjsip/registrar/Registrar.java:1097-1104 | the loop finds the first wildcard Contact |
| CmdClient.ApplyOption | src/openjsip/CmdClient.java:253-273 | r, n, k and c each set their own option and nothing else; any other character changes nothing |
| CmdClient.ApplyOptionsSets | src/openjsip/CmdClient.java:240-247 | after a group an option is set exactly when it was set before or its letter occurs in the group |
| CmdClient.ParseServiceUri | src/openjsip/CmdClient.java:137-157 | a URI not starting with `rmi://` is an IllegalArgumentException, and any parsed URI has a non-empty name |
| CmdClient.ParseServiceUriOfParts | src/openjsip/CmdClient.java:137-157 | `rmi://host:port/name` with a host free of ':' and '/', a 32-bit port and a non-empty name parses back to exactly those parts |
| CmdClient.SplitOptions | src/openjsip/CmdClient.java:130-134 | the arguments left after the option groups start with one that is not an option; running out of arguments is NoSuchElementException |
| CmdClient.OnlyOptionsFail | src/openjsip/CmdClient.java:130-134 | arguments that are all option groups leave no service URI, so `firstElement()` fails |
| CmdClient.CommandOf | src/openjsip/CmdClient.java:163-170 | the command is GET exactly for "get" in any letter case, and one of GET, PING, CUSTOM |
| CmdClient.CommandWords | src/openjsip/CmdClient.java:163-170 | "ping" is PING, and "get" and "GET" are GET |
| CmdClient.CustomParameters | src/openjsip/CmdClient.java:222-228 | null exactly when no word follows the command, otherwise the words after it |
| CmdClient.FirstThrow | src/openjsip/CmdClient.java:184-188 | the position of the first GET item whose `execCmd` throws (or the number of items): every item before it was answered, and the item there throws |
| CmdClient.GetRunAnswered | src/openjsip/CmdClient.java:184-203 | when every `execCmd` returns, the GET loop completes without failure and prints every item |
| CmdClient.GetRunStops | src/openjsip/CmdClient.java:184-203 | a RemoteException from `execCmd` on item k escapes the loop: the run fails with RemoteFailure, the items before k stay printed and no later item is fetched or printed |
| CmdClient.GetOutputJoined | src/openjsip/CmdClient.java:184-203 | with -r the GET items are joined by the separator (":" with -c, " " otherwise), none before the first and no newline |
| CmdClient.GetOutputLines | src/openjsip/CmdClient.java:184-203 | without -r the GET output is one line per item |
| CmdClient.ItemsLength | src/openjsip/CmdClient.java:184-203 | one printed item per requested item |
| CmdClient.LaunchAt | src/openjsip/CmdClient.java:122-234 | a well-formed service URI followed by a command runs that command on the URI with the default options |
| CmdClient.PingReport | src/openjsip/CmdClient.java:206-216 | a ping prints "<name> is alive." when the service answers and "<name> is dead." otherwise |
| CmdClient.GetNeedsItems | src/openjsip/CmdClient.java:174-178 | a GET with no item after the command word is an IllegalArgumentException and prints nothing |
| CmdClient.GetReport | src/openjsip/CmdClient.java:174-204 | a GET on a bound service prints the GET output of its items, each fetched as `execCmd("get", [item])`, and succeeds when every call returns; when the call for item k throws, the run fails with RemoteFailure after printing exactly the items before k |
| CmdClient.CustomReport | src/openjsip/CmdClient.java:218-231 | a custom command word calls `execCmd` with the words after it, or null when there are none; a RemoteException fails the run with nothing printed, otherwise the answer ("null" for null) is printed as one line |
| CmdClient.CmdClient.constructor | src/openjsip/CmdClient.java:122-234 | the run, its failure (a remote exception from `execCmd` included) and all it prints, is exactly `Launch` of the arguments |
| CmdClient.CmdClient.ParseParameterChar | src/openjsip/CmdClient.java:253-273 | the options become `ApplyOption` of the old ones |
| CmdClient.CmdClient.ParseParameter | src/openjsip/CmdClient.java:240-247 | one leading '-' is dropped and every remaining character is applied in order |
| CmdClient.CmdClient.Start | src/openjsip/CmdClient.java:122-234 | the constructor's body, with each `throw` (its own and those escaping `execCmd`) as an early return, gives `Launch` of the arguments |
| CmdClient.CmdClient.ReadOptions | src/openjsip/CmdClient.java:130-134 | the loop over the option groups fails exactly when `SplitOptions` does, with NoSuchElement, and otherwise leaves its options and arguments |
| CmdClient.CmdClient.ReadServiceUri | src/openjsip/CmdClient.java:137-157 | the `indexOf`, `substring` and `parseInt` steps compute `ParseServiceUri`, and a parsed URI's parts are stored in the host, port and name fields |
| CmdClient.CmdClient.RunCommand | src/openjsip/CmdClient.java:162-233 | the command dispatch after the URI gives `Execute` of the remaining arguments, RemoteFailure when a GET item's or the custom command's `execCmd` throws |
| CmdClient.CmdClient.PrintGet | src/openjsip/CmdClient.java:184-203 | the GET loop appends exactly what `GetRun` prints (the items before the first throwing call) and fails exactly as `GetRun` does |
| CmdClient.CmdClient.PrintAnswer | src/openjsip/CmdClient.java:230-231 | a custom command whose `execCmd` threw ends with RemoteFailure and prints nothing; otherwise its answer ("null" for null) is printed as one line |
| CmdClient.CmdClient.PrintItem | src/openjsip/CmdClient.java:192-202 | one item is printed with the separator unless it is the first print, and the first-print flag is cleared |
| ProxyRules.ProviderByAddr | src/openjsip/proxy/Proxy.java:927-939 | a provider is found exactly when some provider's address or host name is the given address, and the one found is such a provider |
| ProxyRules.EffectivePort | src/openjsip/proxy/Proxy.java:1178 | a port that is given is kept; a missing port reads as 5060 |
| ProxyRules.AuthSubject | src/openjsip/proxy/Proxy.java:1612-1628 | a request whose Request-URI names an interface is checked as a copy whose Request-URI host and SIP To host are the default domain, tags, credentials and method kept; without a To header that copy cannot be made; any other request is checked as it is |
| ProxyRules.CheckProxyAuthorizationAsWritten | src/openjsip/proxy/Proxy.java:1698-1726 | as written, a Proxy-Authorization user name containing '@' is never accepted, whatever the digest |
| ProxyRules.CheckProxyAuthorization | src/openjsip/proxy/Proxy.java:1698-1726 | the corrected check accepts exactly when the To URI's subscriber exists, its user is the header's name up to '@' and the digest over the name sent is right; an unknown subscriber is reported as such; no header never passes |
| ProxyRules.QualifiedProxyNameAccepted | src/openjsip/proxy/Proxy.java:1719-1724 | a client that sends "user@domain" with the correct digest is accepted by the corrected check and refused by the check as written |
| ProxyRules.AuthStep | src/openjsip/proxy/Proxy.java:1630-1650 | without credentials the request is challenged with no remote call; with credentials a remote failure gives 500, a pass passes, and a copy that cannot be made faults |
| ProxyRules.Validate | src/openjsip/proxy/Proxy.java:1511-1688 | a request passes exactly when its scheme is sip, sips or tel, Max-Forwards is not 0 or less, no loop is seen, there is no Proxy-Require and, with authentication on, authorization passed; it is challenged exactly when only authorization failed; every rejection carries the request's Call-ID, Vias and CSeq and a status among 416, 483, 482, 420 and 500 |
| ProxyRules.ValidationOrder | src/openjsip/proxy/Proxy.java:1535-1650 | the checks apply in the order 416, 483, 482, 420, then authorization: the first failing check decides the reply, the 420 names the option tag, and a 500 comes exactly from an unreachable location service during authorization |
| ProxyRules.ProxyChallenged | src/openjsip/proxy/Proxy.java:1657-1666 | the 407 reply carries one Digest Proxy-Authenticate challenge with the realm, the nonce, an empty opaque, stale FALSE and the algorithm, and no WWW-Authenticate |
| ProxyRules.StrictRouted | src/openjsip/proxy/Proxy.java:1041-1079 | strict routing applies exactly when Route headers are present and the Request-URI is the interface's address or host name with the first listening point's port; the Request-URI then becomes the last Route, which is removed, and nothing else changes |
| ProxyRules.PointFor | src/openjsip/proxy/Proxy.java:1119 | the listening point found has the transport asked for, in any letter case; none is found only when no listening point has it |
| ProxyRules.StripMAddr | src/openjsip/proxy/Proxy.java:1099-1155 | a URI without maddr is unchanged; host, port, user and scheme security are kept; a URI that changes has lost both its maddr and its transport parameter |
| ProxyRules.PopOwnRoute | src/openjsip/proxy/Proxy.java:1164-1190 | the first Route is removed, and nothing else changes, exactly when it is a SIP URI naming an interface with the first listening point's port (5060 when it gives none) |
| ProxyRules.Preprocessed | src/openjsip/proxy/Proxy.java:1099-1190 | preprocessing keeps the method, To, Call-ID and Vias and leaves the Request-URI as the maddr rule makes it |
| ProxyRules.TargetKey | src/openjsip/proxy/Proxy.java:1404-1424 | there is no key exactly when there is no To header; a To host naming an interface is looked up under the default domain; any other request under its own key |
| ProxyRules.Targets | src/openjsip/proxy/Proxy.java:1446-1476 | a stateful proxy keeps every registered contact, a stateless one only the first; the targets are empty exactly when there are no contacts |
| ProxyRules.RecordRouteOf | src/openjsip/proxy/Proxy.java:1974-1984 | the Record-Route value is a SIP URI with the interface's host name, the first listening point's port and an lr parameter |
| ProxyRules.NextHopKeepsValues | src/openjsip/proxy/Proxy.java:2027-2042 | the strict-router rotation loses and gains no URI: the Request-URI with the routes is the same multiset before and after, with as many routes |
| ProxyRules.NextHopCases | src/openjsip/proxy/Proxy.java:2027-2042 | a first Route without lr becomes the Request-URI and the old Request-URI is appended as the last Route; otherwise both stay as they are |
| ProxyRules.Forwarded | src/openjsip/proxy/Proxy.java:1888-2216 | the forwarded copy keeps method, To, From, Call-ID, CSeq, Proxy-Require and Contacts; Max-Forwards is decremented or set to 70; the interface's Record-Route is added first; the canonical target then goes through the strict-router rotation; one Via with the interface's host name, port, transport and the branch is added on top; Content-Length is set from the body when absent |
| ProxyRules.ForwardedHops | src/openjsip/proxy/Proxy.java:1937-1949 | a request that passed validation is forwarded with fewer hops than it came with, and never a negative count |
| ProxyRules.ForwardedCopyLoops | src/openjsip/proxy/Proxy.java:1733-1771 | the loop check recognises the Via the proxy adds, so a copy that comes back to the proxy is a loop |
| ProxyRules.HashCodeFrom | src/openjsip/proxy/Proxy.java:2148 | Java's string hash stays a 32-bit value and starts from the initial value |
| ProxyRules.HashCode | src/openjsip/proxy/Proxy.java:2148 | the string hash is a 32-bit value |
| ProxyRules.HashCodeConcat | src/openjsip/proxy/Proxy.java:2148 | the hash of a concatenation continues from the hash of its prefix |
| ProxyRules.StatelessBranch | src/openjsip/proxy/Proxy.java:2102-2172 | a hashed branch is lower-case hex; without a top Via or without MD5 the random branch stays |
| ProxyRules.HexHasNoCookie | src/openjsip/proxy/Proxy.java:2149-2161 | a lower-case hex text never starts with the magic cookie z9hG4bK |
| ProxyRules.StatelessBranchShape | src/openjsip/proxy/Proxy.java:2140-2161 | a hashed stateless branch lacks the magic cookie, and two requests equal on the Vias, To, From, Call-ID, CSeq and Request-URI get the same branch |
| ProxyRules.CookieBranchIgnoresRest | src/openjsip/proxy/Proxy.java:2146-2149 | with an inbound cookie branch only the hash code of that branch decides the stateless branch |
| ProxyRules.StatelesslyRelayed | src/openjsip/proxy/Proxy.java:2552-2599 | a response is sent on exactly when its top Via names an interface with the first listening point's port (5060 when absent) and a Via is left, and then it is the response without its top Via |
| ProxyRules.PopVia | src/openjsip/proxy/Proxy.java:2429 | the top Via is removed when there is one, and nothing changes otherwise |
| ProxyRules.React | src/openjsip/proxy/Proxy.java:2429-2542 | with no Via left the response context is consulted; once the server transaction has completed only a 2xx to INVITE is sent on and everything else dropped; final responses are stored exactly when it has not; a stored response is sent on at once only when it is a 2xx; a 6xx cancels its siblings; a 100 is never sent on |
| ProxyRules.ProceedingOnes | src/openjsip/proxy/Proxy.java:2609-2622 | a transaction is selected exactly when it is in the order and in PROCEEDING, and never more than the order holds |
| ProxyRules.CancelsForSpec | src/openjsip/proxy/Proxy.java:2607-2659 | as many CANCELs are sent as there are transactions in PROCEEDING, the i-th cancelling the i-th of them on a new client transaction |
| ProxyRules.ProceedingOnesDistinct | src/openjsip/proxy/Proxy.java:2609-2622 | filtering a list without repetition gives one without repetition, so no transaction is cancelled twice |
| ProxyRules.ProceedingOnesSnoc | src/openjsip/proxy/Proxy.java:2609-2622 | one more transaction at the end is filtered on its own |
| ProxyRules.CancelsForSnoc | src/openjsip/proxy/Proxy.java:2609-2653 | one more transaction at the end adds at most one CANCEL, at the end, on the next client transaction |
| ProxyRules.BranchRaisesIsFailure | src/openjsip/proxy/Proxy.java:2140-2161 | a stateless forward raises exactly when the stateless branch computation fails |
| ProxyRules.ForwardBranch | src/openjsip/proxy/Proxy.java:2102-2172 | there is no branch exactly when its computation raises; the drawn branch is kept by a stateful proxy or when nothing is hashed, and replaced by the hash otherwise |
| ProxyRules.ForwardedCopy | src/openjsip/proxy/Proxy.java:1908-2216 | no copy is made exactly when the Request-URI is not a SIP URI or the branch computation raises |
| ProxyRules.StatelessCopyIgnoresDraw | src/openjsip/proxy/Proxy.java:2102-2161 | when the stateless branch is hashed the copy does not depend on the random draw, and its top Via carries the hash |
| ProxyRules.StatefulCopyHasCookie | src/openjsip/proxy/Proxy.java:2102-2176 | a stateful proxy's copy carries a generated branch starting with the magic cookie |
| ProxyRules.UrisOf | src/openjsip/proxy/Proxy.java:1480-1483 | the targets are the contacts' URIs, one each, in order |
| ProxyRules.Dispatch | src/openjsip/proxy/Proxy.java:1244-1497 | a predetermined request goes to its Request-URI alone; a forward has targets, is stateful only with a server transaction and has one target in stateless mode; a forward from the location service goes to the To key's contacts, and a stateful proxy's CANCEL is then never stateful; a matched CANCEL takes its INVITE's context; an answer without a plugin reply is 404, 480 or 500, and 404 exactly marks a key the location service does not know |
| ProxyRules.AdmitSpec | src/openjsip/proxy/Proxy.java:988-1190 | a request proceeds exactly when the location service is present, it validates and it is not strictly routed, and then preprocessed with its Vias and method kept; it is re-entered exactly when it validates and is strictly routed; it is refused with the validation verdict; it is answered 500 exactly when the location service is absent |
| ProxyRules.StrictRoutedUndoesNextHop | src/openjsip/proxy/Proxy.java:1041-1060 | a request the previous hop sent to this proxy as a strict router is restored to the Request-URI and Route set it had before that hop rotated them |
| ProxyRules.OwnRecordRoutePopped | src/openjsip/proxy/Proxy.java:1164-1190 | a request that comes back with the Record-Route value the proxy added as its first Route loses that Route, and only it |
| ProxyRules.RegisteredContactsAreTargets | src/openjsip/proxy/Proxy.java:1401-1484 | a stateful proxy forwards to every registered contact, on the server transaction when it has one; a stateless proxy forwards to the first contact alone |
| ProxyRules.PredeterminedIgnoresLocation | src/openjsip/proxy/Proxy.java:1244-1273 | a predetermined target set is the Request-URI alone, whatever the location service, the plugins or the CANCEL handling would say |
| ProxyRules.UnmatchedCancelIsStateless | src/openjsip/proxy/Proxy.java:1291-1342 | a CANCEL whose INVITE the stateful proxy cannot match is never forwarded on a client transaction |
| ProxyState.RowOf | src/openjsip/proxy/Proxy.java:187-195 | each of the six counters of the proxy's SNMP table is found at its own row |
| ProxyState.Add | src/openjsip/proxy/Proxy.java:2252 | one counter of the table moves by the amount and every other counter keeps its value |
| ProxyState.ForwardsAt | src/openjsip/proxy/Proxy.java:2232-2294 | the i-th message handed to the stack is the i-th copy, on the i-th new client transaction when forwarding is stateful and sent through the provider otherwise |
| ProxyState.ForwardsAppend | src/openjsip/proxy/Proxy.java:1480-1484 | forwarding one list of copies and then another sends what forwarding both, in order, sends |
| ProxyState.FanAt | src/openjsip/proxy/Proxy.java:2255-2266 | after the copies are sent on client transactions, each new client transaction is linked to the mapping and every other one keeps its link |
| ProxyState.FanAppend | src/openjsip/proxy/Proxy.java:2255-2266 | linking two consecutive runs of client transactions to one mapping links the whole run |
| ProxyState.Forwarding | src/openjsip/proxy/Proxy.java:2232-2294 | forwarding copies keeps the SNMP table's size |
| ProxyState.TimersForAppend | src/openjsip/proxy/Proxy.java:2280-2290 | the Timer C timers of two consecutive forwardings are one per new INVITE client transaction of both, in order |
| ProxyState.ForwardedNone | src/openjsip/proxy/Proxy.java:1480-1484 | forwarding no copy changes nothing |
| ProxyState.ForwardedOne | src/openjsip/proxy/Proxy.java:2232-2294 | forwarding one copy is one send step after its timers are scheduled |
| ProxyState.ForwardingTimers | src/openjsip/proxy/Proxy.java:2280-2290 | timers scheduled after a forwarding are those scheduled with it |
| ProxyState.ForwardingStateless | src/openjsip/proxy/Proxy.java:2232-2235 | a stateless forwarding does not depend on the mapping |
| ProxyState.ForwardingAppend | src/openjsip/proxy/Proxy.java:1480-1484 | two forwardings in a row are one forwarding of all their copies, provided the second uses the mapping the first left for the server transaction |
| ProxyState.ForwardingStep | src/openjsip/proxy/Proxy.java:2255-2263 | one more `forwardRequest`, whose mapping is the one the server transaction has, extends a forwarding of the earlier copies to one of all copies, still with the server transaction's own mapping |
| ProxyState.ForwardingClosed | src/openjsip/proxy/Proxy.java:2232-2294 | after forwarding the outbox has the copies appended, the handle and the client-transaction gauge move by the client transactions created, the timers are appended, and only the server transaction's mapping is added |
| ProxyState.ForwardingHandles | src/openjsip/proxy/Proxy.java:2247-2263 | the next handle moves by the client transactions created, and only the server transaction's mapping can change or be added |
| ProxyState.ForwardingEffect | src/openjsip/proxy/Proxy.java:2232-2294 | the copies follow the old outbox in order on consecutive transactions; the CLIENT gauge alone moves, by the number of client transactions; each new client transaction maps to the one mapping added; every other mapping is unchanged, and a stateless forwarding changes none |
| Proxies.Reply | src/openjsip/SipUtils.java:175-182 | a response goes out on the server transaction exactly when there is one, and through the provider otherwise |
| Proxies.SentBy | src/openjsip/proxy/Proxy.java:2754-2766 | a response goes on the server transaction exactly while that transaction has not completed, and through the provider afterwards |
| Proxies.BestOf | src/openjsip/proxy/Proxy.java:2667-2686 | at most one response is sent; one is sent exactly when the server transaction is open, every client transaction has completed and the context has a best response; that response goes on the server transaction |
| Proxies.TwoHundredRelayedAtOnce | src/openjsip/proxy/Proxy.java:2519-2525 | a 2xx goes on at once (for an INVITE, even after the server transaction completed), followed by exactly one CANCEL per client transaction still in PROCEEDING, in order, each on a new transaction |
| Proxies.HeldBack | src/openjsip/proxy/Proxy.java:2445-2481 | after the server transaction has completed nothing but a 2xx to an INVITE is sent, and a 100 is never sent |
| Proxies.SixHundredWins | src/openjsip/proxy/Proxy.java:2534-2542 | a 6xx on an open server transaction is stored and cancels the pending branches; once every branch has completed, the one response sent carries the 6xx's code when no earlier 6xx was stored |
| Proxies.NothingFinalTimesOut | src/openjsip/proxy/Proxy.java:2678 | when every branch has completed and no final response was stored, the server transaction gets a 408 |
| Proxies.NothingPending | src/openjsip/proxy/Proxy.java:2609-2622 | with every client transaction completed, no CANCEL is sent |
| Proxies.Proxy.constructor | src/openjsip/proxy/Proxy.java:310-703 | the digest method's realm is the default domain (`getDefaultDomain()`, the first of the served domains) and its one algorithm is MD5; the SNMP table has all six counters at zero; there is no mapping and nothing has been sent |
| Proxies.Proxy.Count | src/openjsip/proxy/Proxy.java:2252 | one SNMP counter moves by one up or down and the others keep their values |
| Proxies.Proxy.CheckServerTransaction | src/openjsip/proxy/Proxy.java:1797-1831 | a stateful proxy opens a server transaction, counts it and gives it a new mapping exactly when the request came without one, is not an ACK and is not a retransmission; otherwise the state is unchanged, and a stateless proxy has no server transaction |
| Proxies.Proxy.CancelPending | src/openjsip/proxy/Proxy.java:2607-2659 | each client transaction of the mapping is visited once, and exactly those in PROCEEDING get a CANCEL on a new counted client transaction, in order |
| Proxies.Proxy.CancelOne | src/openjsip/proxy/Proxy.java:2622-2653 | a client transaction in PROCEEDING gets one CANCEL on a new counted transaction; any other gets nothing |
| Proxies.Proxy.SendResponseImmediately | src/openjsip/proxy/Proxy.java:2708-2795 | the response goes out as `SentBy` says; a final response is followed by the CANCELs of the mapping's pending client transactions, a provisional one by nothing |
| Proxies.Proxy.CheckResponseContext | src/openjsip/proxy/Proxy.java:2667-2695 | exactly `BestOf` the mapping's context is sent, and no counter or transaction changes |
| Proxies.Proxy.MappingFor | src/openjsip/proxy/Proxy.java:2255-2259 | the server transaction keeps its mapping when it has one and gets a new one for the request otherwise |
| Proxies.Proxy.SendOnClientTransaction | src/openjsip/proxy/Proxy.java:2247-2294 | one new counted client transaction carries the copy and is linked to the server transaction's mapping; a Timer C is scheduled exactly for an INVITE |
| Proxies.Proxy.StartTimerC | src/openjsip/proxy/Proxy.java:2282-2290 | a new Timer C for the client transaction is scheduled and the mapping's stored timers do not change |
| Proxies.Proxy.Fork | src/openjsip/proxy/Proxy.java:2255-2290 | the client transaction is linked to the mapping, and a new Timer C is scheduled exactly for an INVITE |
| Proxies.Proxy.Link | src/openjsip/proxy/Proxy.java:2263-2266 | the client transaction is added to the server transaction's mapping, made when missing |
| Proxies.Proxy.CopyFor | src/openjsip/proxy/Proxy.java:1888-2177 | there is no copy exactly when the Request-URI is not a SIP URI or the branch computation raises, and a copy keeps the request's method |
| Proxies.Proxy.ForwardRequest | src/openjsip/proxy/Proxy.java:1845-2299 | the copy is `CopyFor` the target; the call raises exactly when the stateless branch computation does; the new state is `Forwarding` of the copy, statelessly or on a new client transaction of the server transaction's mapping, with a Timer C for an INVITE |
| Proxies.Proxy.Deliver | src/openjsip/proxy/Proxy.java:2232-2294 | the new state is `Forwarding` of the copy, through the provider or on a new client transaction, with a Timer C for an INVITE sent on a transaction |
| Proxies.Proxy.CopiesForAt | src/openjsip/proxy/Proxy.java:1480-1484 | the k-th copy is the one forwardRequest makes for the k-th target with the k-th random value |
| Proxies.Proxy.CopiesAgree | src/openjsip/proxy/Proxy.java:1480-1484 | the copies agree with forwardRequest's copy for each target exactly when they are a prefix of those copies |
| Proxies.Proxy.CopiesStep | src/openjsip/proxy/Proxy.java:1480-1484 | the copy for the next target extends the copies made so far by one |
| Proxies.Proxy.ForwardNext | src/openjsip/proxy/Proxy.java:1480-1484 | one turn of the loop extends the copies and the forwarding they amount to by one target |
| Proxies.Proxy.ForwardedStep | src/openjsip/proxy/Proxy.java:2232-2294 | the state after one more forwardRequest is `Forwarding` of the copies so far plus the new one |
| Proxies.Proxy.ForwardToTargets | src/openjsip/proxy/Proxy.java:1480-1484 | the loop raises exactly when there is a target and the branch computation raises; every target gets its copy in order or none does; one random value is drawn per SIP target; the state moves as `Forwarding` of all copies says, with one Timer C per client transaction for an INVITE |
| Proxies.Proxy.ForwardEach | src/openjsip/proxy/Proxy.java:1480-1484 | the loop ends with every target forwarded, or with the first raising |
| Proxies.Proxy.QualifiedNameNeverPasses | src/openjsip/proxy/Proxy.java:1610-1724 | as written, credentials that name the subscriber "user@domain" never pass validation even with the right digest; checked against the name the client sent, they do |
| Proxies.Proxy.ValidateRequest | src/openjsip/proxy/Proxy.java:1511-1688 | the verdict is `Validate` on the as-written authorization check; what is sent is exactly the refusal for that verdict (a 407 drawing one new nonce); a request that passes changes nothing |
| Proxies.Proxy.Authenticate | src/openjsip/proxy/Proxy.java:1610-1674 | once the earlier checks passed, the verdict and what is sent (a 407 with a new nonce, or a 500 when the location service fails) are those `Validate` gives |
| Proxies.Proxy.PlanFor | src/openjsip/proxy/Proxy.java:1244-1497 | the targets are `Dispatch` of the request, its server transaction, the known INVITE transactions, the plugin and the location service's contacts |
| Proxies.Proxy.Carry | src/openjsip/proxy/Proxy.java:1273-1497 | the plan is carried out as `Carried` says: a reply, a CANCEL's 200 with the pending branches cancelled, a 480, or the forwarding loop |
| Proxies.Proxy.ProcessIncomingRequest | src/openjsip/proxy/Proxy.java:969-1498 | the handling is `RequestHandled`: 500 without a location service, else validation, then strict-route re-entry, or preprocessing, the server transaction, target determination and forwarding in that order |
| Proxies.Proxy.Admitted | src/openjsip/proxy/Proxy.java:997-1498 | with the location service reachable, the handling is `RequestHandled` on the service's bindings and the as-written authorization |
| Proxies.Proxy.Screen | src/openjsip/proxy/Proxy.java:1004-1008 | a request validation refuses is handled with that refusal; one it passes changes nothing |
| Proxies.Proxy.Routed | src/openjsip/proxy/Proxy.java:1041-1079 | a strictly routed request is returned for re-processing with nothing sent; any other is handled onward |
| Proxies.Proxy.Onward | src/openjsip/proxy/Proxy.java:1099-1497 | a request that passed validation and was not strictly routed is preprocessed, gets its server transaction, and is dispatched and carried out |
| Proxies.Proxy.HandledAt | src/openjsip/proxy/Proxy.java:969-1498 | each way out of processIncomingRequest satisfies `RequestHandled` |
| Proxies.Proxy.Proceed | src/openjsip/proxy/Proxy.java:1212-1497 | after admission the server transaction is opened as `Opened` says, the plan is `Dispatch` on the new state and it is carried out |
| Proxies.Proxy.Target | src/openjsip/proxy/Proxy.java:1212-1424 | checkServerTransaction, then the plan `Dispatch` gives on the resulting server transactions |
| Proxies.Proxy.StatelessSendsOneCopy | src/openjsip/proxy/Proxy.java:1470-1484 | a stateless proxy that forwards an admitted request sends exactly one copy, for its single target, through the provider, with no transaction, mapping or timer |
| Proxies.Proxy.ProceedsAt | src/openjsip/proxy/Proxy.java:1212-1484 | an admitted request that is forwarded has at least one target (exactly one when stateless); nothing raises; one random value is drawn per target; the copies are those of forwardRequest, and the state is `Forwarding` of them |
| Proxies.Proxy.StatefulForksEachTarget | src/openjsip/proxy/Proxy.java:2247-2294 | a stateful forward sends one copy per target in order on consecutive new client transactions, all linked to the server transaction's one mapping, counts them, and for an INVITE starts one Timer C per client transaction |
| Proxies.Proxy.OneStatelessCopy | src/openjsip/proxy/Proxy.java:2232-2235 | one copy forwarded statelessly is one message through the provider and changes nothing else |
| Proxies.Proxy.ProcessRequest | src/openjsip/proxy/Proxy.java:768-794 | the request is handled as `RequestHandled` says, then counted as a request, or as a request error when its handling raised |
| Proxies.Proxy.ProcessResponseStatelessly | src/openjsip/proxy/Proxy.java:2552-2599 | exactly the relayed response `StatelesslyRelayed` gives is sent, or nothing |
| Proxies.Proxy.UpdateTimerC | src/openjsip/proxy/Proxy.java:2399-2412 | a new Timer C is scheduled exactly for a 101 to 199 response to an INVITE; nothing else changes |
| Proxies.Proxy.Respond | src/openjsip/proxy/Proxy.java:2429-2542 | the response is stored exactly for the reactions that store it, and what is sent is `Reacted` for the reaction `React` picks, with the CANCELs of the mapping's pending branches when it cancels |
| Proxies.Proxy.Store | src/openjsip/proxy/Proxy.java:2503-2525 | on an open server transaction a final response is stored; a 2xx is sent on at once with the CANCELs after it, any other consults the context |
| Proxies.Proxy.Settle | src/openjsip/proxy/Proxy.java:2503-2542 | a non-2xx final response is stored; a 6xx cancels the pending branches; then `BestOf` the context is sent |
| Proxies.Proxy.ProcessIncomingResponse | src/openjsip/proxy/Proxy.java:2316-2543 | the handling is `ResponseHandled`: the stateless way without a client transaction or mapping, else the Timer C reset, the Via removal and the reaction; only the mapping's own context changes |
| Proxies.Proxy.Correlated | src/openjsip/proxy/Proxy.java:2368-2542 | a response on a client transaction with a mapping is handled as `ResponseHandled` says on that mapping |
| Proxies.Proxy.ReceivedAt | src/openjsip/proxy/Proxy.java:2368-2542 | the steps taken for a response with a mapping amount to `ResponseHandled` |
| Proxies.Proxy.TwoHundredForwarded | src/openjsip/proxy/Proxy.java:2519-2525 | a 2xx to an INVITE on a client transaction with a mapping goes on at once, followed by exactly one CANCEL for each sibling in PROCEEDING, each on a new client transaction |
| Proxies.Proxy.ProcessResponse | src/openjsip/proxy/Proxy.java:797-821 | the response is handled as `ResponseHandled` says and counted |
| Proxies.Proxy.ProcessTimeout | src/openjsip/proxy/Proxy.java:824-840 | for a client transaction with a mapping, exactly `BestOf` its context is sent; otherwise nothing changes |
| Proxies.Proxy.ProcessTransactionTerminated | src/openjsip/proxy/Proxy.java:850-871 | the server or client gauge goes down by one, then a client transaction with a mapping gets `BestOf` its context |

## Left out

- `Common.ToLower`, `Common.ToUpper` and `Common.EqualsIgnoreCase` fold ASCII letters only (`ToUpper` is the digest's upper-casing of the request method). Java's `toLowerCase`/`equalsIgnoreCase` are Unicode-aware, so a command such as "pıng" (dotless ı) that Java reads as PING is CUSTOM here.
- `Common.ParseInt` accepts ASCII digits only, while `Integer.parseInt` also accepts other Unicode decimal digits.
- URI equality (`URI.equals`, which compares scheme, user, host, port and parameters) is structural equality of the `Sip.Uri` record.
- `UserProfiles.UserProfile`: bindings are values, so `Vector.contains`/`remove` (object identity in the source) are value tests. The sharing of one contact header between a binding and the lists `getContactHeaders` returns is modelled in bindings.dfy only (`Bindings.SharedHeader`), not in the location service.
- `Bindings.ContactHeader.SetExpires`: the JAIN-SIP `setExpires` rejects a negative value with an exception that `setExpiresTime` ignores. Its implementation is not part of this model, so every 32-bit value is accepted; the `(int)` cast is modelled as explicit 32-bit wrap-around.
- `Snmp.SNMPAssistant.IncrementSnmpInteger` and `Snmp.SNMPAssistant.DecrementSnmpInteger` use unbounded integers; the 32-bit wrap of the SNMP integer object is not modelled.
- The JAIN-SIP stack is an outbox (`SipStack.Stack`): messages are recorded as sent, new transactions get consecutive handles, timers are recorded as scheduled. Transaction states, the INVITE a CANCEL matches and whether a server transaction already exists are inputs to each event. Parsing, serialisation, retransmission and the transaction state machines are not modelled.
- `createCancel` and `getNewClientTransaction` are not modelled beyond the outbox entry they lead to.
- CmdClient's standard output is a string field (`CmdClient.CmdClient.stdout`) that the client appends to, and standard error is not modelled. `isAlive`'s boolean result is not looked at (as in the source): the ping reports "is alive" whenever the call returns. The RMI registry lookup is the `CmdClient.RemoteService` parameter.
- RMI failures of the location service seen by the proxy are one `remoteDown` input per event: every remote call in that event fails or none does.
- `Proxies.Proxy.locationService` is fixed at construction, and a null service is the proxy's 500 path. The source looks the service up again for every request (Proxy.java:988), so a lookup that fails for one request and succeeds for the next is not expressible; only the per-event `remoteDown` input varies.
- `Registrars.Registrar.ProcessRegister`: the location-service calls made during a REGISTER (`getUsername`/`getPassword`, `removeAllBindings`, `getBinding`, `removeBinding`, `updateRegistration`, `getContactHeaders`; Registrar.java:1119-1308) always succeed here. In the source each can throw RemoteException; `processRequest` then returns null and the request event handler answers 500, with the contacts applied before the failing call still applied. That path is not modelled.
- The strict-route re-dispatch runs on a new thread in the source. Here the rewritten request is returned (`reentered`) for the caller to process again.
- Method plugins are a pure function from request to reply (`ProxyRules.PluginReply`); plugin loading and their side effects are not modelled.
- `Proxies.Proxy.constructor`: always has an SNMP table. The source creates the table only when `proxy.snmp.agent.enabled` is yes (the default). Otherwise every counter update in `processRequest`, `processResponse`, `forwardRequest`, `checkServerTransaction`, `cancelPendingTransactions`, `processTransactionTerminated` and `TimerCTask.run` dereferences null. That configuration is not modelled.
- `Proxies.Proxy.ProcessResponse` never raises, since no step of the modelled response handling throws. The response-error counter (`ProxyState.RESPONSE_ERRORS_ROW`) therefore never moves.
- `TransactionsMappings.TransactionsMapping`: a mapping always has a server transaction. The source's null check at Proxy.java:2381-2387 is dead, because the constructor rejects null.
- The registrar's SNMP counters, logging and NDC contexts are not modelled.
- The `execCmd` administration commands of the servers are not modelled; CmdClient sees them only as the service's command function.
- Configuration file I/O, `main`, network-interface enumeration, listening-point creation and shutdown hooks are not modelled: configuration is a map of properties, and interfaces are the provider's listening points.
- MD5 (`MessageDigest`), `java.util.Random`, `String.hashCode` and the clock are parameters: a hash function, a stream of random values with a draw counter, a hash-code function and a `now` argument.
- Concurrency is not modelled: `synchronized` blocks, the `java.util.Timer` threads, and the non-synchronised `getUsername`/`getPassword`. Timer firings and sweeps are explicit method calls.

## Findings

| source | as written | input that shows it | evidently intended | confidence | as-written member | corrected member |
|---|---|---|---|---|---|---|
| src/openjsip/proxy/TransactionsMapping.java:136-142 | `registerTimerC` stores the timer only when the client transaction is NOT yet in the mapping, but Proxy.java adds the transaction first (2263 before 2285; 2402-2407) | any INVITE forwarded statefully: its Timer C is never stored, so `cancelTimerC` on a provisional response, a timeout or a termination cancels nothing and the old timer still fires | store the timer for a transaction that is in the mapping | not executed | TransactionsMappings.AddThenRegister, TransactionsMappings.RearmAsWritten | TransactionsMappings.TransactionsMapping.RegisterTimerCIntended, TransactionsMappings.AddThenRegisterIntended, TransactionsMappings.RearmIntended |
| src/openjsip/registrar/Registrar.java:1312-1319 | `checkAuthorization` strips "@domain" from the credentials' username and passes the stripped name to `doAuthenticate`, which compares it with the unstripped username (DigestServerAuthenticationMethod.java:102-104) | a REGISTER whose Authorization username is "alice@example.com", with the right digest: 401 every time | authenticate the subscriber named before the '@' | not executed | Registrars.CheckAuthorizationAsWritten | Registrars.CheckAuthorization, Registrars.QualifiedNameAccepted |
| src/openjsip/proxy/Proxy.java:1719-1724 | `checkProxyAuthorization` strips "@domain" the same way before `doAuthenticate` | a request whose Proxy-Authorization username is "alice@example.com", with the right digest: 407 every time | authenticate the subscriber named before the '@' | not executed | ProxyRules.CheckProxyAuthorizationAsWritten, Proxies.Proxy.QualifiedNameNeverPasses | ProxyRules.CheckProxyAuthorization, ProxyRules.QualifiedProxyNameAccepted |
| src/openjsip/registrar/Registrar.java:622-623 | MAX = max(MIN + 5, max) in 32-bit `int` arithmetic | `registrar.binding.expire.time.min` = 2147483647: MIN + 5 wraps negative, so MAX = 3600 < MIN and every requested expiry is clamped to 3600, below the minimum | a window with MIN + 5 <= MAX | not executed | Registrars.ExpiryWindowAsWritten, Registrars.WindowOverflows, Registrars.ConfiguredOverflow | Registrars.ExpiryWindow |
| src/openjsip/locationservice/LocationService.java:356-372 | the SNMP assistant is created only when the SNMP agent is enabled, though the comment there says it must never be null; `CheckBindingsTask.run` updates its gauges at 749-750 | `location.service.snmp.agent.enabled` = no: the first sweep throws, the timer thread dies and bindings never expire again | create the table whatever the configuration | not executed | LocationServices.FirstSweepAsWritten | LocationServices.LocationService.WithTable, LocationServices.FirstSweep |
| src/openjsip/locationservice/LocationService.java:279 | `for (int index = 1; index <= maxUsers; index++)` with a 32-bit `int` index, and `maxUsers` = max(100, `user.max`) | `user.max` = 2147483647: every `int` satisfies `index <= maxUsers`, and `index++` wraps from 2147483647 to -2147483648, so the constructor never returns | read entries 1 to `maxUsers` and stop | not executed | LocationServices.ProvisionLoopWraps | LocationServices.ProvisionTable, LocationServices.ProvisionedComplete |
