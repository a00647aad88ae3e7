# Space provisioning commands: a Dafny model

This project models the part of a Spring Boot service that provisions per-tenant
vcluster "spaces". The service does this by running external tools: `helm`, the
`vcluster` CLI and `kubectl`. Four pieces make up the model:

- **The command builders** (`CommandDto`). Each one turns a request into the exact argv
  token sequence for its tool: `helm install …` for a new space,
  `vcluster connect … -- kubectl delete sc …` for removing a storage class, and
  `kubectl patch -p <json> resourcequota …` for a quota patch. Each builder may add the
  optional kube-config credential pair, which is zero or two tokens. The credential
  flag is spelt `--kube-config` for vcluster and `--kubeconfig` otherwise. The patch's
  JSON body gets Windows-only quote escaping.
- **The runner** (`CmdService`). `baseRunning` runs a command, logs the result, counts
  exit codes 0 and 141 as success, and calls at most one of two optional continuations.
  The public operations `createSpaceInCloud`, `deleteStorageClass` and
  `patchResourceQuota` wire each builder to the runner.
- **The configuration start-up hook** (`K8SProperties.init`). It expands a leading `~` of
  the kube-config path to the user's home directory.
- **The sequence helpers** (`Util`) that the above use or sit beside: array
  concatenation, partitioning by a key into two or three lists, projecting with two
  functions, zipping, picking the single distinct value, and removing the
  `content-length` header.

Modules: `Wrappers` (Option), `Util`, `CommandDto`, `Properties`, `CmdService`, one file each.

Each piece takes the form its source has:

- The builders are pure functions. They assemble their tokens with `Util.Flatten`, which
  is the specification of `concatAllArray`. Each builder has a reader (`Parse…`) that
  reads the argv back. For install and patch, round-trip lemmas show that the command
  determines the request. For delete, the command determines only the space id and the
  effective storage-class name. A null type, an empty type and the configured default
  name give the same argv (`DeleteStorageClassDefaultsCoincide`).
- The loops of `Util` are methods, proved against specification functions (`Filter`,
  `MapSeq`, `Flatten`, `ListPairByTwoList`, `Collected`).
- `K8SProperties.init` is a method on a class with the source's fields. It is modelled
  the way the source writes it, as `replaceFirst("^~", quoteReplacement(home))`, and is
  proved equal to the plain expansion `ExpandHome`.
- `baseRunning` is a method over a `Trace` object. The trace is one sequence of events in
  the order they happen: the argv handed to the operating system, each log line, and
  each continuation call. A run appends `RunEvents`: the argv, then its log lines, then
  its continuation call. The process itself is the parameter `run` (launch failure,
  interrupted wait, failed stderr read, or exit code plus stderr text).

Four details of the runner in `CmdService.java` shape the model:

- The runner calls *at most* one continuation (lines 51-56). A success exit code with no
  success callback falls through to the failure callback.
- One info line is logged per entry of the log map (lines 42-44), so none for an empty map.
- The error line is logged only when stderr is not blank (`isNotBlank`, line 47). Mere
  non-emptiness is not enough.
- Stderr is read after the info lines have been logged (line 46), so a failure while
  reading comes after them.

## Model

| member | source | states |
|---|---|---|
| `Util.ConcatArray` | src/main/java/org/example/springbootboilerplate/util/Util.java:34-38 | the result has both lengths added, the first array as its prefix and the second as its suffix |
| `Util.ConcatAllArray` | src/main/java/org/example/springbootboilerplate/util/Util.java:48-59 | null exactly when no array is given; otherwise the in-order concatenation `Flatten` of all arrays (loop invariant: the result so far is the concatenation of the arrays seen) |
| `Util.FlattenAppend` | src/main/java/org/example/springbootboilerplate/util/Util.java:48-59 | concatenating all arrays of `xs + ys` is concatenating those of `xs`, then those of `ys` |
| `Util.FlattenThree` | src/main/java/org/example/springbootboilerplate/util/Util.java:48-59 | three arrays, the shape every builder passes, concatenate to `a + b + c` |
| `Util.Filter` | src/main/java/org/example/springbootboilerplate/util/Util.java:246-261 | the order-preserving selection the reduce builds is no longer than its input, and holds only input elements that satisfy the test |
| `Util.FilterMembership` | src/main/java/org/example/springbootboilerplate/util/Util.java:246-261 | an element is selected if and only if it is in the input and satisfies the test |
| `Util.FilterSplit` | src/main/java/org/example/springbootboilerplate/util/Util.java:246-261 | selecting by a test and by its negation splits the input: lengths add up and the multisets add up to the input's |
| `Util.FilterThreeWay` | src/main/java/org/example/springbootboilerplate/util/Util.java:379-416 | three selections by pairwise exclusive tests hold together at most the input, as a multiset |
| `Util.FilterThreeWayCover` | src/main/java/org/example/springbootboilerplate/util/Util.java:379-416 | when every element passes one of three pairwise exclusive tests, the three selections together are exactly the input, as a multiset |
| `Util.FilterThreeWayLength` | src/main/java/org/example/springbootboilerplate/util/Util.java:379-416 | the three selections are no longer than the input together, and exactly as long when every element passes one test |
| `Util.PairWithCollectionsByFlag` | src/main/java/org/example/springbootboilerplate/util/Util.java:238-262 | left is exactly the elements whose key equals `flag`, right exactly the others, both in input order; empty input gives two empty lists |
| `Util.PairByFlagIsPartition` | src/main/java/org/example/springbootboilerplate/util/Util.java:238-262 | the two lists together are a permutation of the input: lengths sum to the input length and multisets sum to the input's |
| `Util.PairWithCollectionsByFlags` | src/main/java/org/example/springbootboilerplate/util/Util.java:278-305 | left is the elements keyed `flag`, right those keyed `otherFlag`, each in input order; the two comparisons are made independently |
| `Util.PairByFlagsMembership` | src/main/java/org/example/springbootboilerplate/util/Util.java:278-305 | an element matching neither flag is in neither list; one whose key equals both flags is in both |
| `Util.TripleLanes` | src/main/java/org/example/springbootboilerplate/util/Util.java:381-407 | routing of one element: left iff key is the first flag; with 3 flags the first matching flag wins and unmatched go nowhere; with 2 unmatched go right; with 1 unmatched go middle and right |
| `Util.TripleWithCollectionsByFlag` | src/main/java/org/example/springbootboilerplate/util/Util.java:369-417 | three empty lists for 0 or more than 3 flags; otherwise each list is, in input order, exactly the elements `TripleLanes` routes to it |
| `Util.TripleSizes` | src/main/java/org/example/springbootboilerplate/util/Util.java:369-417 | with 2 flags the three lists are a permutation of the input; with 3 they are a sub-multiset (unmatched dropped); with 1 middle and right both equal the non-matching elements |
| `Util.PairListByFunctions` | src/main/java/org/example/springbootboilerplate/util/Util.java:419-441 | two lists as long as the input, position i holding `getLeft(c[i])` and `getRight(c[i])`; that is, the two lists are `MapSeq` of the input by each function |
| `Util.ListPairByTwoList` | src/main/java/org/example/springbootboilerplate/util/Util.java:477-487 | non-empty exactly when both inputs are non-empty and of equal size; then unzipping the result gives back both inputs |
| `Util.ListPairByFunctions` | src/main/java/org/example/springbootboilerplate/util/Util.java:454-466 | as long as the input, and equal to the zip of the two projections that `getPairListByFunctions` returns |
| `Util.ListPairByTwoCollection` | src/main/java/org/example/springbootboilerplate/util/Util.java:498-515 | advancing two iterators in step yields exactly `getListPairByTwoList` of the same inputs |
| `Util.SingleDataByCollections` | src/main/java/org/example/springbootboilerplate/util/Util.java:169-190 | null when a collection is null; otherwise a value exactly when the set of non-null projections of non-null elements over all pairs has one element, and then that set is `{value}` (so null for no pairs) |
| `Util.AllowResolveHeader` | src/main/java/org/example/springbootboilerplate/util/Util.java:81-88 | returns the same map object, from which exactly the key `content-length` has been removed; every other entry is unchanged |
| `CommandDto.WithKubeConfig` | src/main/java/org/example/springbootboilerplate/dto/CommandDto.java:27-32 | zero tokens without a kube-config path, else two: the tool's flag spelling, then the path; never one |
| `CommandDto.EscapeQuotes` | src/main/java/org/example/springbootboilerplate/dto/CommandDto.java:44 | length grows by the number of quotes, no quote is left at the start, and every quote in the result is preceded by a backslash |
| `CommandDto.UnescapeEscapeQuotes` | src/main/java/org/example/springbootboilerplate/dto/CommandDto.java:44 | escaping loses nothing: reading backslash-quote back as quote recovers the original |
| `CommandDto.EscapeQuotesWithoutQuotes` | src/main/java/org/example/springbootboilerplate/dto/CommandDto.java:44 | a text without quotes is unchanged by escaping |
| `CommandDto.JsonValidator` | src/main/java/org/example/springbootboilerplate/dto/CommandDto.java:42-47 | off Windows the body is unchanged; on Windows it grows by one character per quote and reads back to the original |
| `CommandDto.InstallCmd` | src/main/java/org/example/springbootboilerplate/dto/CommandDto.java:60-75 | `helm install` + credential tokens + space id, `--create-namespace`, `-n`, namespace, `--repo`, chart repository, `vcluster`, `--version`, `0.15.5`, `-f`, chart path; 13 tokens, 15 with a kube-config |
| `CommandDto.DeleteStorageClassCmd` | src/main/java/org/example/springbootboilerplate/dto/CommandDto.java:84-96 | `vcluster connect` + credential tokens + space id, `--`, `kubectl`, `delete`, `sc`, name; the last token is the type when non-empty and the configured default when the type is null or empty |
| `CommandDto.PatchCmd` | src/main/java/org/example/springbootboilerplate/dto/CommandDto.java:105-115 | `kubectl patch -p`, the JSONValidator body, `resourcequota`, `<id>-quota`, `--namespace`, `vcluster-<id>`, then the credential tokens last |
| `CommandDto.KubeConfigPlacement` | src/main/java/org/example/springbootboilerplate/dto/CommandDto.java:60-115 | a configured path inserts exactly two tokens and changes nothing else: at index 2 for install (`--kubeconfig`) and delete (`--kube-config`), at the end for patch (`--kubeconfig`) |
| `CommandDto.InstallRoundTrip` | src/main/java/org/example/springbootboilerplate/dto/CommandDto.java:60-75 | the install argv gives back its request verbatim, empty strings included, and every argv of install shape is the command of the request read from it |
| `CommandDto.DeleteStorageClassRoundTrip` | src/main/java/org/example/springbootboilerplate/dto/CommandDto.java:84-96 | the delete argv gives back the space id and the effective storage-class name, and every argv of delete shape with a non-empty name is that request's command |
| `CommandDto.DeleteStorageClassDefaultsCoincide` | src/main/java/org/example/springbootboilerplate/dto/CommandDto.java:92 | a null type and an empty type give the same delete argv, and so does the configured default name when it is non-empty: the request's type cannot be read back |
| `CommandDto.PatchRoundTrip` | src/main/java/org/example/springbootboilerplate/dto/CommandDto.java:105-115 | the patch argv gives back its request, JSON body included, on Windows and elsewhere |
| `Properties.QuoteReplacement` | src/main/java/org/example/springbootboilerplate/properties/K8SProperties.java:42 | `Matcher.quoteReplacement` never shortens its input and returns a text without `\` or `$` unchanged |
| `Properties.QuoteReplacementIsLiteral` | src/main/java/org/example/springbootboilerplate/properties/K8SProperties.java:42 | a quoted replacement stands for its original text even when that holds `$` or `\` |
| `Properties.ReplaceFirstLeadingTilde` | src/main/java/org/example/springbootboilerplate/properties/K8SProperties.java:42 | `replaceFirst("^~", rep)`: the anchored pattern matches only a `~` at index 0; without that match the path comes back unchanged and `rep` is never read; with it, the `~` becomes the text `rep` stands for, followed by the rest of the path, and the call fails exactly when `rep` is malformed under `ReplacementText`, which rejects every `$` |
| `Properties.ExpandHome` | src/main/java/org/example/springbootboilerplate/properties/K8SProperties.java:42 | `"~" + rest` becomes `home + rest`; any other path is unchanged |
| `Properties.QuotedReplaceFirstExpandsHome` | src/main/java/org/example/springbootboilerplate/properties/K8SProperties.java:42 | `replaceFirst("^~", quoteReplacement(home))` never fails and equals `ExpandHome` |
| `Properties.ExpandHomeOnce` | src/main/java/org/example/springbootboilerplate/properties/K8SProperties.java:42 | expanding an already expanded path changes nothing when home does not start with `~` |
| `Properties.K8SProperties.constructor` | src/main/java/org/example/springbootboilerplate/properties/K8SProperties.java:18-21 | the four configuration fields hold the bound values, each possibly null |
| `Properties.K8SProperties.Init` | src/main/java/org/example/springbootboilerplate/properties/K8SProperties.java:35-44 | a null path stays null, a non-null path becomes its home expansion, and no other field changes |
| `CmdService.Dispatch` | src/main/java/org/example/springbootboilerplate/service/CmdService.java:51-56 | success callback if and only if exit code is 0 or 141 and it is present; failure callback with the stderr text if and only if present and that first case does not hold; nothing else |
| `CmdService.DispatchFollowsClassification` | src/main/java/org/example/springbootboilerplate/service/CmdService.java:51-56 | with both callbacks each classification reaches its own; a success code without success callback reaches the failure callback; a failure never reaches the success callback |
| `CmdService.Invocations` | src/main/java/org/example/springbootboilerplate/service/CmdService.java:51-56 | at most one continuation per run, and none unless the process exited and stderr was read |
| `CmdService.Raised` | src/main/java/org/example/springbootboilerplate/service/CmdService.java:37-46 | an exception is raised exactly when launching, waiting or reading stderr failed |
| `CmdService.JavaWhitespaceDefinition` | src/main/java/org/example/springbootboilerplate/service/CmdService.java:47 | the whitespace test behind `isBlank` agrees with Java 17's `Character.isWhitespace` as documented: a Unicode space separator (Zs), the line separator or the paragraph separator, except the no-break spaces U+00A0, U+2007 and U+202F; or one of tab, line feed, U+000B, form feed, carriage return and U+001C-U+001F. `IsBlank` holds when every character passes it |
| `CmdService.BlankCharacters` | src/main/java/org/example/springbootboilerplate/service/CmdService.java:47 | examples: the empty text and texts drawn from every listed whitespace range are blank and not logged; U+00A0, U+2007, U+202F, U+0085 and U+200B are not whitespace, so a text holding one is logged |
| `CmdService.InfoLines` | src/main/java/org/example/springbootboilerplate/service/CmdService.java:42-44 | one info line per log-map entry, in iteration order, each carrying the label, key, value and exit code |
| `CmdService.LogLines` | src/main/java/org/example/springbootboilerplate/service/CmdService.java:42-49 | no lines before the process exits; then the info lines; then one error line with the stderr text exactly when it could be read and is not blank |
| `CmdService.ErrorLines` | src/main/java/org/example/springbootboilerplate/service/CmdService.java:47-49 | one error line carrying the label and the full stderr text if and only if that text is not blank; none otherwise |
| `CmdService.RunEventsViews` | src/main/java/org/example/springbootboilerplate/service/CmdService.java:37-56 | the events of a run hold exactly one argv, `cmd` unchanged; exactly the `LogLines` as log lines; exactly the `Invocations` as continuation calls |
| `CmdService.LogBeforeDispatch` | src/main/java/org/example/springbootboilerplate/service/CmdService.java:37-56 | order within a run: the argv comes first and no other argv follows, and every log line, the error line included, comes before any continuation call |
| `CmdService.RunEventsOfExited` | src/main/java/org/example/springbootboilerplate/service/CmdService.java:37-56 | for a completed run the events are the argv, the info lines, the error line (if any), then the continuation call (if any), in that order |
| `CmdService.LogInfoLines` | src/main/java/org/example/springbootboilerplate/service/CmdService.java:42-44 | the loop over the log map appends exactly the `InfoLines` to the trace, in order, and nothing else |
| `CmdService.LogErrorLine` | src/main/java/org/example/springbootboilerplate/service/CmdService.java:47-49 | appends exactly the `ErrorLines` of the stderr text to the trace, and nothing else |
| `CmdService.CallContinuation` | src/main/java/org/example/springbootboilerplate/service/CmdService.java:51-56 | appends exactly the `Invocations` of the completed run to the trace, and nothing else |
| `CmdService.BaseRunning` | src/main/java/org/example/springbootboilerplate/service/CmdService.java:31-57 | raises `Raised(run)` and appends `RunEvents` to the trace: `cmd` handed unchanged to the OS, then the `LogLines`, then the `Invocations`, in that order |
| `CmdService.RunOutcome` | src/main/java/org/example/springbootboilerplate/service/CmdService.java:38-56 | a raised exception means no continuation; the success callback runs iff exit 0/141 and present; the failure callback gets exactly the full stderr text |
| `CmdService.CreateSpaceInCloud` | src/main/java/org/example/springbootboilerplate/service/CmdService.java:70-87 | runs exactly `InstallCmd` of its arguments with label "created vcluster" and log map `{spaceId}` |
| `CmdService.DeleteStorageClass` | src/main/java/org/example/springbootboilerplate/service/CmdService.java:89-103 | runs exactly `DeleteStorageClassCmd` with label "Delete vcluster storageClasses" and log map `{spaceId}` |
| `CmdService.PatchResourceQuota` | src/main/java/org/example/springbootboilerplate/service/CmdService.java:105-119 | runs exactly `PatchCmd` with label "patch vcluster resource quota" and log map `{spaceId}` |

## Left out

- Launching, waiting for and reading the external process (`Runtime.exec`, `waitFor`, `readAllBytes`): their observable result is the parameter `run`. UTF-8 decoding of the error bytes is not modelled; `Exited` carries the decoded text.
- A process that writes more to stderr than the pipe holds can block before `waitFor` returns, because the stream is read only afterwards. Blocking and concurrency are outside a sequential model.
- The slf4j message formatting: log lines are abstract `Info` and `Error` entries.
- What the continuations do when called, and exceptions they throw: only the call and its argument are recorded.
- The operating-system test `SystemUtils.OS_NAME.toLowerCase().contains("window")` is the boolean parameter `onWindows`.
- The static configuration wiring: `CommandDto.init` copies the properties object into a static field, and Spring/Lombok builders construct the requests. The configuration is the explicit parameter `Config`, and the requests are datatype values.
- Null caller strings (space id, namespace, chart path, quota body) are not modelled; here they are non-null strings. In the source, a null space id never reaches a run: `Map.of("spaceId", spaceId)` throws `NullPointerException` first (CmdService.java lines 86, 102 and 118). A null quota body on Windows makes `JSONValidator` throw `NullPointerException` (CommandDto.java line 44) before any run. Off Windows, a null quota body, and a null namespace or chart path on every platform, reaches `exec` as a null token, and `exec` throws `NullPointerException`.
- A missing `blockStorage` configuration section, or a present one whose `name` is null, is not modelled; `Config` always carries a default name. When the delete fallback needs the name, a missing section makes the source throw `NullPointerException` while building the command. A null `name` puts a null token in the argv (CommandDto.java line 92), and `exec` throws `NullPointerException`.
- `Util.ConcatAllArray`: null array arguments are not modelled. In the source a null array is skipped while no result exists yet, and a later one makes `concatArray` throw (Util.java lines 51-55). Aliasing is not modelled either: with a single argument the source returns that same array object, not a copy.
- `Util.PairWithCollectionsByFlag`, `Util.PairWithCollectionsByFlags` and `Util.TripleWithCollectionsByFlag` do not model a key function that returns null or throws. Java `equals` on keys is Dafny equality.
- A null collection in the partition, projection and zip helpers is represented by the empty sequence, because each of them returns the same result for null and for empty.
- `Util.SingleDataByCollections` models a null collection, which makes the source catch an exception and return null. An empty collection is different: it adds nothing to the set (Util.java line 179). It does not model a null pair, a null function, or a function that throws, which lead to the same null.
- `Util.ListPairByTwoCollection` leaves out the `NoSuchElementException` handler. It cannot be reached when each iterator yields as many elements as its collection's size.
- `Util.AllowResolveHeader` compares header names exactly, as a case-sensitive map does.
- `Properties.ReplacementText` treats every `$` as an error. Group references (`$0`) are not modelled; a quoted replacement contains none.
- `Properties.ReplaceFirstLeadingTilde` fails for a replacement holding a group reference such as `$0`, where Java substitutes the matched `~`. `K8SProperties.init` always passes a quoted replacement, so its behaviour is unaffected.
- `Properties.QuoteReplacement` is a library call, modelled by its documented behaviour. Its meaning is stated by `Properties.QuoteReplacementIsLiteral`.
- `Util.getK8SAPIClient`, `Util.stringToResource`, `Util.getRequestHeaders`, RequestHolder.java, KeycloakProperties.java and GitLabProperties.java are not part of this model. They are a Kubernetes client call, a Spring resource wrapper, servlet and thread-local plumbing, and plain data holders.
