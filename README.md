# Tracking agent: registration, status gate and activation

The tracking package is dropped into a PHP web application. On every request
it does the following:

- **Registration, once per host.** When no `.project_registered_<md5(host)>`
  flag file exists under the project root, it writes that flag. It then
  registers the installation with a central authority under a stable `PROJ_`
  identifier kept in `.project_unique_id`. If the authority reports the
  project as a duplicate, it falls back to a lookup by domain instead.
- **Activation.** It handles an `activation_code` that was POSTed to
  reactivate a suspended project.
- **Status gate.** It asks the authority whether the project is still
  active. If it is not, it replaces the application's response with a 503
  suspension page.

The same decisions also appear in two other places:

- the stand-alone `simple_tracking.php`, which talks to the authority through
  curl;
- the global `handle_activation_code()` helper.

The class autoloader maps the package's class names to files.

The model is split into these modules:

- **`Php`** is the subset of PHP's string built-ins the agent relies on:
  - `trim` and `empty`;
  - `strpos` and `strtok`;
  - `str_replace` of one character;
  - `strtoupper`;
  - integer to decimal;
  - `urlencode`, defined over UTF-8 bytes and proved to round-trip with its
    decoder.
- **`Json`** models decoded JSON values, PHP truthiness, `isset` and `??`.
- **`Http`** holds:
  - the request and its submitted activation code;
  - the calls the agent makes and the authority's replies;
  - how a request is left (passed on, suspension page, redirect, success
    page, or ended by an uncaught exception) and the response that goes
    with each;
  - the redirect builder: `strtok($uri, '?')` followed by one `error=` or
    `success=` parameter.
- **`Identity`** covers the identifier file and the generated
  `PROJ_` + 16 upper-case hex digits identifier.
- **`TrackingSpec`** has one function per step of `TrackingService`. Each
  takes the service's state (its two fields, the files and the calls made
  so far) to the new state and to how the request is left. Each also takes
  a `Build`: the source as written, or with the two defects under
  "## Findings" corrected.
- **`Tracking`** is the same service as a class:
  - `projectId` and `activationCode` are fields its methods assign;
  - a `World` object holds the files and the call log;
  - a `Process` object holds `autoStart`'s static `$started` guard;
  - the build is a constructor parameter, so the class runs either the
    program as written or the corrected one;
  - each method is proved to follow the `TrackingSpec` function of the same
    name.
- **`TrackingProps`** proves what the service promises, including the two
  findings below.
- **`SimpleTracking`**, **`Helpers`** and **`Autoload`** model the
  stand-alone agent, the helper and the autoloader.

The remote authority is a function from a call to its reply. The agent's
surroundings are an `Env` value:

- the project root and the application name;
- the date and `time()`;
- `uniqid()`;
- the two hash functions.

Two transports are modelled:

- **Guzzle** (`TrackingService`): a call "raises" when no answer came or
  the status is 400 or more. A reply is one of three kinds:
  - an answer with a status;
  - a transfer failure that Guzzle reports as a `RequestException`, which
    the source's `catch` clauses handle;
  - an unreachable authority (refused connection, unresolved host,
    timeout). Guzzle 7 reports this as a `ConnectException`, which is not a
    `RequestException`, so as written it escapes every `catch`.
- **curl** (`simple_tracking.php`): it never raises, and a failed connection
  shows as HTTP code 0.

## Model

| member | source | states |
|---|---|---|
| Php.Trim | src/TrackingService.php:129 | the result is the input with only blanks cut before and after it (it sits at some offset with nothing but PHP-trim blanks on either side), has no blank at either end, and is empty exactly when the input is all blanks |
| Php.TrimOfTrimmed | src/TrackingService.php:129 | a string with no blank at either end is left unchanged by `trim` |
| Php.StrPos | src/TrackingService.php:112 | `strpos` returns the first offset where the needle occurs, and `false` exactly when it occurs nowhere |
| Php.StrTok | src/TrackingService.php:895 | `strtok($s, '?')` is `false` exactly when `s` holds only delimiters; otherwise it is the first token: the delimiter-free run that starts after any leading '?' and ends at the next '?' or the end of `s` (for `s` not starting with '?', the prefix up to the first '?') |
| Php.UpToDelimiter | src/TrackingService.php:895 | the prefix of the string before the first delimiter, containing no delimiter |
| Php.ReplaceChar | src/autoload.php:14 | same length; every occurrence of the one character is replaced and every other character kept |
| Php.ReplaceCharUndo | src/autoload.php:14 | replacing back undoes the replacement when the target character did not occur |
| Php.ReplaceCharConcat | src/autoload.php:14 | the replacement distributes over concatenation |
| Php.ReplaceCharAbsent | src/autoload.php:14 | a string without the character is unchanged |
| Php.ToUpper | src/TrackingService.php:162 | `strtoupper` maps each ASCII letter to upper case and keeps every other character |
| Php.NatToDecimal | src/simple_tracking.php:226 | the decimal form of a number: digits only, with a leading '0' only for zero |
| Php.DecimalRoundTrip | src/simple_tracking.php:226 | reading the decimal form back gives the number |
| Php.UrlEncode | src/TrackingService.php:896 | `urlencode` output has only unreserved characters, '+' and '%', so it never holds '?', '&', '=' or '#' |
| Php.UrlEncodeRoundTrip | src/TrackingService.php:896 | decoding `urlencode(s)` gives back the UTF-8 bytes of `s` |
| Php.IntToDecimal | src/simple_tracking.php:226 | PHP's int-to-string: the decimal digits that denote the number (`DecimalValue` of the result is the number), after a '-' when it is negative |
| Php.IsEmpty | src/TrackingService.php:130 | PHP's `empty` on a string: true for "" and for "0"; `Identity.StoredId` and `Http.SubmittedCode` state how it decides a stored identifier and a submitted code |
| Php.UrlDecodeEncode | src/simple_tracking.php:243 | decoding the encoding of any byte sequence gives the bytes back |
| Json.Truthy | src/TrackingService.php:101 | PHP's conversion to bool: null, false, 0, "", "0", the empty array and the empty object are false; the gate, guard and sync lemmas state what each test decides |
| Json.IsSet | src/TrackingService.php:551 | `isset($v[$k])`: defined as a non-null read; `Json.IsSetMeansPresent` states it |
| Json.IsSetMeansPresent | src/TrackingService.php:551 | `isset` holds exactly for an object that has the key with a non-null value |
| Json.TruthyIsSet | src/TrackingService.php:551 | a truthy read is a set one |
| Json.Coalesce | src/TrackingService.php:781-782 | `$v[$k] ?? $default`; `Json.CoalesceNull` and `Http.SuspensionPageFields` state its result |
| Json.CoalesceNull | src/TrackingService.php:97-98 | `??` gives null only for a null default, and `$v[$k] ?? null` is the plain read |
| Http.SubmittedCode | src/TrackingService.php:843-851 | a code is submitted exactly for a POST with an `activation_code` field that does not trim to "" or "0", and it is the trimmed field |
| Http.Raises | src/TrackingService.php:108 | Guzzle throws for a reply without an answer or with a status of 400 or more; every such reply but an unreachable authority is a `RequestException` |
| Http.CurlCode | src/simple_tracking.php:161 | curl's HTTP code is 0 exactly when no answer came (or the status was 0), and otherwise the status |
| Http.SuspensionPage | src/TrackingService.php:758-774 | the suspension page always ends the request |
| Http.SuspensionPageFields | src/TrackingService.php:781-782 | the page shows the record's reason and name, and the defaults where they are missing or null |
| Http.Respond | src/TrackingService.php:966-975 | nothing is sent exactly when the request passes; the suspension page is a 503 and the success page a 200, both with the three no-cache headers; a redirect is a 302 with its Location |
| Http.RedirectBase | src/TrackingService.php:895 | the base has no '?'; it is empty exactly when the URI is all '?'; otherwise it is the first token after any leading '?', up to the next '?' (so `/a?b` gives `/a` and `?x` gives `x`) |
| Http.RedirectHygiene | src/TrackingService.php:895-896 | the redirect's path is the request's path without its query, and its query is exactly one `error=` or `success=` parameter with the encoded message |
| Http.NoSeparators | src/simple_tracking.php:242-243 | the added parameter contains no '&' or '?', so it cannot add or break parameters |
| Http.SplitAtQuery | src/simple_tracking.php:193-195 | a path without '?' joined to a query by '?' splits back into that path and query |
| Http.BaseOfPathAndQuery | src/simple_tracking.php:193 | `strtok` of `path?query` gives the path back |
| Http.RedirectDropsQuery | src/TrackingService.php:920-921 | a URI carrying `foo=bar&activation_code=XYZ` redirects to its bare path |
| Identity.GenerateUniqueProjectId | src/TrackingService.php:147-163 | 21 characters: `PROJ_` and 16 upper-case hex digits that are the first 16 digits of the SHA-256 of root, name, time and `uniqid()` |
| Identity.StoredId | src/TrackingService.php:127-133 | the stored identifier exists exactly when the file exists and does not trim to "" or "0", and it is the trimmed contents |
| Identity.GetOrCreateUniqueProjectId | src/TrackingService.php:123-142 | reuse the stored identifier or generate and write one; `Identity.GetOrCreateCases`, `GetOrCreateStores` and `GetOrCreateStable` state its result |
| Identity.GetOrCreateCases | src/TrackingService.php:123-142 | a usable stored identifier is returned with the files untouched; otherwise a generated one is returned and written, nothing else changes |
| Identity.GetOrCreateStores | src/TrackingService.php:139 | afterwards the file always holds, once trimmed, the identifier returned, which is not empty |
| Identity.GeneratedIdIsTrimmed | src/TrackingService.php:129-130 | a generated identifier survives `trim` and is not `empty` |
| Identity.GetOrCreateStable | src/TrackingService.php:123-142 | once looked up, later lookups under the same root return the same identifier and write nothing, whatever the clock or `uniqid()` say |
| TrackingSpec.Fresh | src/TrackingService.php:15-29 | a new service starts with both fields unset |
| TrackingSpec.Issue | src/TrackingService.php:70-94 | sending a call appends it to the log and changes nothing else |
| TrackingSpec.Discard | src/TrackingService.php:101-105 | a call whose value is dropped leaves the state it made, and ends the request only when it threw |
| TrackingSpec.GateSkips | src/TrackingService.php:744 | when the gate stands aside: as written for any `activation_code` field, corrected only for a submitted code; `TrackingProps.GateDecision` and `BlankCodeBypass` state the effect |
| TrackingSpec.Register | src/TrackingService.php:62-117 | registration, its duplicate fallback and its follow-up calls; `TrackingProps.RegisterSucceeds`, `RegisterFails` and `LookupOnlyOnDuplicate` state its result |
| TrackingSpec.HandleExistingProject | src/TrackingService.php:536-563 | the lookup of an existing project; `TrackingProps.ExistingProjectLookup` states its result |
| TrackingSpec.ValidateProjectStatus | src/TrackingService.php:718-753 | the status gate, as written or corrected; `TrackingProps.GateDecision` states its result |
| TrackingSpec.InitializeTracking | src/TrackingService.php:48-118 | the flag check, then the gate or the registration; `TrackingProps.RegisteredSkipsRegistration` and `FirstRequestWritesFlag` state its result |
| TrackingSpec.ProcessActivationCode | src/TrackingService.php:856-925 | the activation handler; `TrackingProps.ActivationLookupRaised`, `ActivationNotFound`, `ActivationInvalidCode` and `ActivationMatch` state its result on each path |
| TrackingSpec.Construct | src/TrackingService.php:15-29 | the constructor's three steps, stopping at the first that ends the request; `TrackingProps.SuspendedNeverPasses`, `NoEscapeNoCrash` and `UnreachableAuthorityCrashes` state its result |
| TrackingProps.SyncOnlyWhenRegistered | src/TrackingService.php:101-103 | the sync call goes out exactly when both fields are truthy; nothing else changes; only its escaping exception ends the request |
| TrackingProps.HeartbeatOnlyWithProject | src/TrackingService.php:269-290 | the heartbeat goes out exactly when `projectId` is truthy, carrying both fields; only its escaping exception ends the request |
| TrackingProps.ExistingProjectLookup | src/TrackingService.php:536-563 | exactly one lookup by domain; with a record, the fields become its `id` and `activation_code` and the calls are the lookup plus the sync exactly when both are truthy (no heartbeat); without one, or after a caught failure, nothing else happens; an escaping exception ends the request; files untouched |
| TrackingProps.RegisterFrame | src/TrackingService.php:123-142 | registration changes the files only by resolving the identifier, and its first call is the registration request |
| TrackingProps.RegisterSucceeds | src/TrackingService.php:70-106 | a registration that does not raise sets both fields from the answer, then makes exactly the sync call (both truthy) and the heartbeat (id truthy, and the sync did not throw), in that order; the request ends only if one of them threw past the `catch` |
| TrackingProps.RegisterFails | src/TrackingService.php:108-117 | a registration that raises ends the request when its exception escapes; otherwise it leads to the lookup by domain if it was a duplicate conflict, and to nothing more if not |
| TrackingProps.LookupOnlyOnDuplicate | src/TrackingService.php:110-113 | the call after the registration request is the lookup by domain if and only if the answer was a 500 whose body contains "Duplicate entry" |
| TrackingProps.FailedRegistrationLeavesUnset | src/TrackingService.php:108-117 | any other failed registration leaves both fields unset |
| TrackingProps.IdFileIsNotFlag | src/TrackingService.php:51 | the identifier file and the flag file are different files |
| TrackingProps.RegisteredSkipsRegistration | src/TrackingService.php:53-57 | with the flag present, initialisation makes only the gate's lookup, writes nothing and sets no field |
| TrackingProps.FirstRequestWritesFlag | src/TrackingService.php:59-60 | without the flag, the flag is written with the current date and the registration request is sent first; the request passes, or (as written only) ends by an uncaught exception |
| TrackingProps.RegistrationNeverRetried | src/TrackingService.php:51-60 | a later request on the same host finds the flag and makes no registration request, even if the first one failed |
| TrackingProps.GateDecision | src/TrackingService.php:718-753 | one lookup and nothing else; the suspension page for the record exactly when it is suspended and the gate does not stand aside; a caught failure passes, an escaping one ends the request |
| TrackingProps.ActivationFrame | src/TrackingService.php:856-925 | activation changes only the call log, and the lookup by domain comes first |
| TrackingProps.ActivationLookupRaised | src/TrackingService.php:917-924 | a raised lookup redirects with "connection failed", unless its exception escapes the `catch` |
| TrackingProps.ActivationNotFound | src/TrackingService.php:908-915 | an answer without a record redirects with "project not found" |
| TrackingProps.ActivationInvalidCode | src/TrackingService.php:900-907 | a code not strictly equal to the record's redirects with "invalid code" and sends no reactivation |
| TrackingProps.ActivationMatch | src/TrackingService.php:879-899 | a matching code reactivates the record's id; a 200 shows the success page, a caught failure says "connection failed", any other answer "reactivation failed", and an escaping exception ends the request |
| TrackingProps.ReactivateOnlyOnMatch | src/TrackingService.php:875-887 | a reactivation request is sent if and only if a record came back whose code strictly equals the submitted one |
| TrackingProps.ActivationNeverPasses | src/TrackingService.php:856-925 | every path through activation ends the request, and by an uncaught exception only when one escapes |
| TrackingProps.HandlerRunsOnlyOnSubmission | src/TrackingService.php:843-851 | without a submitted code nothing happens; with one the request always ends, by an uncaught exception only when one escapes |
| TrackingProps.GuardsWithoutProject | src/TrackingService.php:292-494 | with `projectId` unset, every remote operation returns its failure value (`null` or `false`) and makes no call |
| TrackingProps.CommandStatusNeedsCommand | src/TrackingService.php:372-373 | `getCommandStatus` makes no call without a command id |
| TrackingProps.GuardedOperationsCall | src/TrackingService.php:292-462 | with `projectId` set, each operation makes exactly its one call, throws exactly when that call's exception escapes, and otherwise returns `true` or the body on an answer and the failure value on a caught failure |
| TrackingProps.RegenerateReplacesOnlyCode | src/TrackingService.php:354-368 | only the activation code changes: to the answer's `activation_code`, which is returned; a raised call keeps it and returns null, or throws when its exception escapes |
| TrackingProps.ValidationOutcome | src/TrackingService.php:984-1017 | the result is `false` or a redirect to the full URI, and the redirect happens exactly when the project is known and the authority answers "success" with active data; the request ends by an uncaught exception exactly when the call's exception escapes |
| TrackingProps.RegisteredInstallStaysUnset | src/TrackingService.php:51-57 | on a flagged install, construction never sets the fields or writes a file, so `updateLastSeen` and every operation afterwards do nothing |
| TrackingProps.BlankCodeBypass | src/TrackingService.php:744 | as written, a POST whose `activation_code` trims to "" or "0" is let through whatever the authority says about the project; only an escaping exception can end it instead |
| TrackingProps.BlankPostSubmitsNothing | src/TrackingService.php:845-847 | a POSTed " " carries the field but submits no code |
| TrackingProps.AuthoritySuspends | src/TrackingService.php:737-741 | a record with `is_active` false is suspended, and an authority that always answers raises nothing that escapes |
| TrackingProps.BlankCodeExample | src/TrackingService.php:741-746 | on that POST to a suspended project, the gate as written passes and the corrected gate shows the suspension page |
| TrackingProps.SuspendedWithoutCodeBlocks | src/TrackingService.php:741-746 | a suspended project with no submitted code gets its suspension page unless the gate stands aside (or, as written, an exception escaped the registration first) |
| TrackingProps.SuspendedNeverPasses | src/TrackingService.php:15-29 | with the corrected gate, a suspended project is never served |
| TrackingProps.CorrectionOnlyAffectsDefects | src/TrackingService.php:744 | the corrections change the handling of no request except one whose form fields carry `activation_code` without a submitted code, or one to an authority that cannot be reached; PHP fills `$_POST` only for a POST, so the first kind is a blank-code POST |
| TrackingProps.SameFollowUps | src/TrackingService.php:269-290 | where no exception escapes, both builds sync, send the heartbeat and look up an existing project alike |
| TrackingProps.SameRegistration | src/TrackingService.php:62-117 | where no exception escapes, both builds register alike |
| TrackingProps.SameActivation | src/TrackingService.php:856-925 | where no exception escapes, both builds handle an activation code alike |
| TrackingProps.RegisterOutcome | src/TrackingService.php:62-117 | registration lets the request through, or ends it by an uncaught exception, and always lets it through when nothing escapes |
| TrackingProps.NoEscapeNoCrash | src/TrackingService.php:15-29 | the constructor ends a request by an uncaught exception only if some reply's exception escapes; so the corrected build never does |
| TrackingProps.UnreachableAuthorityCrashes | src/TrackingService.php:750 | as written, an unreachable authority ends every request with an uncaught exception |
| TrackingProps.UnreachableFailsOpen | src/TrackingService.php:750-752 | corrected, an unreachable authority leaves the site up: the request is served, or redirected with "connection failed" when it submits a code |
| Tracking.World.Send | src/TrackingService.php:72-94 | a call is appended to the log and answered by the authority |
| Tracking.World.Write | src/TrackingService.php:60 | one file is written, nothing else |
| Tracking.TrackingService.constructor | src/TrackingService.php:15-29 | initialise, handle activation, run the gate, stopping at the first step that ends the request; equal to `TrackingSpec.Construct` for the build it is given |
| Tracking.TrackingService.InitializeTracking | src/TrackingService.php:48-118 | follows `TrackingSpec.InitializeTracking` for the service's build |
| Tracking.TrackingService.Register | src/TrackingService.php:62-117 | follows `TrackingSpec.Register` |
| Tracking.TrackingService.GetOrCreateUniqueProjectId | src/TrackingService.php:123-142 | follows `Identity.GetOrCreateUniqueProjectId` and sends no call |
| Tracking.TrackingService.SyncIfRegistered | src/TrackingService.php:101-103 | follows `TrackingSpec.SyncIfRegistered` |
| Tracking.TrackingService.HandleExistingProject | src/TrackingService.php:536-563 | follows `TrackingSpec.HandleExistingProject` |
| Tracking.TrackingService.StartHeartbeat | src/TrackingService.php:269-290 | follows `TrackingSpec.StartHeartbeat` |
| Tracking.TrackingService.ValidateProjectStatus | src/TrackingService.php:718-753 | follows `TrackingSpec.ValidateProjectStatus` for the service's build (the gate as written, or corrected) |
| Tracking.TrackingService.HandleActivationCode | src/TrackingService.php:843-851 | follows `TrackingSpec.HandleActivationCode` |
| Tracking.TrackingService.ProcessActivationCode | src/TrackingService.php:856-925 | follows `TrackingSpec.ProcessActivationCode` |
| Tracking.TrackingService.UpdateLastSeen | src/TrackingService.php:292-307 | follows `TrackingSpec.UpdateLastSeen` |
| Tracking.TrackingService.RegenerateActivationCode | src/TrackingService.php:354-368 | follows `TrackingSpec.RegenerateActivationCode` |
| Tracking.TrackingService.GetCommandStatus | src/TrackingService.php:370-386 | follows `TrackingSpec.GetCommandStatus` |
| Tracking.TrackingService.Invoke | src/TrackingService.php:309-494 | follows `TrackingSpec.Invoke` for `getDatabase`, `getSource`, `updateCredentials`, `startProject`, `stopProject`, `getProjectStatus`, `getProjectInfo`, `deleteProject` and `getRealDatabase` |
| Tracking.TrackingService.InvokeTargeted | src/TrackingService.php:565-713 | follows `TrackingSpec.InvokeTargeted` for `updateDatabaseFromEnv`, `backupSourceCode` and `deleteDatabaseData` |
| Tracking.TrackingService.ValidateActivationCode | src/TrackingService.php:984-1017 | follows `TrackingSpec.ValidateActivationCode` |
| Tracking.Process.constructor | src/TrackingService.php:37 | a process starts with the guard down |
| Tracking.Process.AutoStart | src/TrackingService.php:34-46 | the first call constructs the service with the given build and its outcome is the constructor's (an escaping exception still ends the request, since the `catch` at line 43 matches nothing); every later call in the same process does nothing and returns |
| SimpleTracking.CheckProjectStatus | src/simple_tracking.php:25-62 | the stand-alone status check; `SimpleTracking.CheckBlocksExactly` and `CheckPassesOnFailure` state its result |
| SimpleTracking.HandleActivationCode | src/simple_tracking.php:139-247 | the stand-alone activation handler; `SimpleTracking.BlankCodeAsksForCode`, `ActivationFetchFails`, `ActivationDecision` and `RedirectsGoBack` state its result |
| SimpleTracking.Run | src/simple_tracking.php:250-256 | activation first, then the status check unless this was an activation POST; `SimpleTracking.ActivationPostAlwaysRedirects`, `OtherRequestsAreChecked` and `SuspendedNeverServed` state its result |
| SimpleTracking.CheckBlocksExactly | src/simple_tracking.php:25-62 | one lookup; it blocks exactly on a 200 with a record whose `is_active` is falsy or missing, with that record's 503 page |
| SimpleTracking.CheckPassesOnFailure | src/simple_tracking.php:46-57 | a failed connection (code 0) or any other code than 200 lets the request through |
| SimpleTracking.ActivationPostAlwaysRedirects | src/simple_tracking.php:139-256 | every POST with an `activation_code` field is redirected, and the status check is not run for it |
| SimpleTracking.BlankCodeAsksForCode | src/simple_tracking.php:239-245 | a code that trims to "" or "0" redirects asking for the code, with no call |
| SimpleTracking.ActivationFetchFails | src/simple_tracking.php:164-228 | any other code than 200 redirects with the message naming that code; a 200 without a record redirects with "project not found" |
| SimpleTracking.ActivationDecision | src/simple_tracking.php:170-212 | a mismatching code says "invalid code" with no reactivation; a match reactivates, and a 200 brings the success message, anything else an error naming the code |
| SimpleTracking.ReactivateOnlyOnMatch | src/simple_tracking.php:164-186 | a reactivation call is made if and only if the record's code strictly equals the trimmed submitted code |
| SimpleTracking.OtherRequestsAreChecked | src/simple_tracking.php:253-256 | any request that is not an activation POST gets exactly the status check |
| SimpleTracking.SuspendedNeverServed | src/simple_tracking.php:250-256 | a project reported suspended is never served: suspension page or redirect |
| SimpleTracking.RedirectsGoBack | src/simple_tracking.php:190-244 | every redirect goes back to the request's own URI, carrying an error or the success message |
| Helpers.HandleActivationCode | src/helpers.php:33-44 | `handle_activation_code()`; `Helpers.FalseWithoutSubmission`, `Delegates` and `NeverTrue` state its result |
| Helpers.FalseWithoutSubmission | src/helpers.php:33-44 | `false`, with nothing touched, for a request that is not a POST, has no field, or carries a code that trims to "" or "0" |
| Helpers.Delegates | src/helpers.php:37-39 | otherwise the result is `validateActivationCode` of the trimmed code |
| Helpers.NeverTrue | src/helpers.php:33-44 | the result is `false` or the redirect to the full URI (or, as written, an uncaught exception), never `true`, and never anything but `false` without a known project |
| Autoload.ClassFile | src/autoload.php:8-14 | no file exactly for a class outside the `Vendor\TrackingPackage\` prefix |
| Autoload.Load | src/autoload.php:16-18 | a file is required only when it is the class's file and it exists |
| Autoload.OutsidePrefixLoadsNothing | src/autoload.php:8-11 | a class outside the prefix loads nothing |
| Autoload.ClassFileShape | src/autoload.php:13-14 | the file is the base directory, the rest of the class name with '\' as '/', and `.php` |
| Autoload.ClassFileRoundTrip | src/autoload.php:13-14 | the class name can be read back from its file |
| Autoload.ClassFileInjective | src/autoload.php:13-14 | two classes never share a file |
| Autoload.ClassFileOfRelative | src/autoload.php:13-14 | the file of `prefix + rel` is `dir/` + `rel` with '/' + `.php` |
| Autoload.OneSeparator | src/autoload.php:14 | a one-level namespace maps to a one-level directory |
| Autoload.CommandClassExample | src/autoload.php:4-19 | `Vendor\TrackingPackage\Commands\TrackingCommand` loads from `Commands/TrackingCommand.php` |

## Left out

- Transport details are not modelled: HTTP headers, timeouts, URLs and the
  Guzzle client itself. The authority is a function from the call to its
  reply, which also makes it answer the same call the same way within one
  request.
- Which Guzzle version is installed is not modelled. An unreachable
  authority is the `Unreachable` reply, Guzzle 7's `ConnectException`. Under
  Guzzle 6 that exception is a `RequestException`, which is the `NoAnswer`
  reply. Other PHP errors that the code does not catch are not modelled.
- The bodies of the data-harvesting calls are not modelled. This covers the
  payloads of `updateDatabaseFromEnv`, `backupSourceCode`,
  `deleteDatabaseData`, `getRealDatabase` and `updateCredentials`, and the
  reading of `.env` by `getDatabaseConfig`. Only the call and its guard are
  recorded.
- `getAppName`, which also reads `.env`, and the discovery of the project
  root (`getProjectRoot`) are not modelled. Their results are inputs of `Env`.
- `getSystemInfo` is modelled only for the domain it sends. It is
  `HTTP_HOST` or "localhost", and the port never changes it. The other
  fields it sends, among them `getLaravelVersion`'s answer, are not modelled.
- The HTML of the suspension and success pages is left out. Only what they
  show (the reason and the name) and their status and headers are kept.
- `exit` is modelled as the request's outcome. `headers_sent` is assumed
  false.
- `$_POST` values are strings. An array-valued `activation_code` is not
  modelled.
- Decoded JSON has no floating-point numbers.
- Indexing into a value that is not an array reads as null.
- Write failures of `file_put_contents` are not modelled.
- Concurrent requests racing on the flag file are not modelled.
- The `catch (Exception $e)` in `autoStart` has no effect in the model.
  Inside the package's namespace it names a class that does not exist, so
  it catches nothing, and an escaping exception still ends the request.
- The `catch` blocks in `simple_tracking.php` are left out: the one in
  `checkProjectStatus` and the one at the end of the activation handler.
  curl never raises there, so they are unreachable.
- The helpers that only delegate to the service are not separate members:
  `tracking_service`, `track_project`, `get_project_status`,
  `get_project_database` and `get_project_source`. `Tracking.TrackingService`
  covers their behaviour.
- The Laravel middleware, service provider, console command and kernel are
  not part of this model.
- Tracking.TrackingService.ProcessActivationCode: the success page's
  JavaScript redirect target is kept only as `RedirectBase` of the request
  URI.
- An uncaught exception is modelled as PHP's bare 500 response. The host's
  own error page and logging are not modelled.

## Findings

| source | as written | input that shows it | evidently intended | confidence | as-written member | corrected member |
|---|---|---|---|---|---|---|
| src/TrackingService.php:744 | the status gate stands aside whenever the request carries an `activation_code` field, but the activation handler (lines 845-847) ignores a code that trims to "" or "0" | a POST with `activation_code` set to " " to a project whose record has `is_active` false: the application is served | stand aside only when a code was actually submitted and handled, so a suspended project is never served | not executed | TrackingProps.BlankCodeBypass | TrackingProps.SuspendedNeverPasses |
| src/TrackingService.php:750 | every remote call is wrapped in `catch (RequestException $e)` (also lines 108, 287, 560, 917 and the others). Guzzle 7's `ConnectException` is not a `RequestException`, and the `catch (Exception $e)` at line 43 names a class that does not exist, so nothing catches it | an authority that refuses the connection, does not resolve or times out: every request of the host application ends with an uncaught exception | fail open, as the comment at line 751 says: ignore the failure and let the application run | not executed; holds with Guzzle 7, not with Guzzle 6 | TrackingProps.UnreachableAuthorityCrashes | TrackingProps.UnreachableFailsOpen |

`TrackingProps.BlankCodeExample` exhibits the input of the first finding.
Both corrections live in `TrackingSpec`'s `Corrected` build: the gate
`TrackingSpec.GateSkips(Corrected, …)`, and `catch` clauses that catch every
transfer exception (`TrackingSpec.Escapes` is false for it).
`TrackingProps.NoEscapeNoCrash` shows that the corrected build never crashes.
`TrackingProps.CorrectionOnlyAffectsDefects` shows that the corrections
change nothing else. `Tracking.TrackingService` runs whichever build it is
given.
