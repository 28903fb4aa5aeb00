# jira-api-restclient core, modelled in Dafny

This project models the logic of the PHP client library `jira-api-restclient`
that does not depend on the network:

- **The two paginating walkers** (`Projects\Walker`, `Jira\Users\Walker`).
  Each is a class with the PHP fields (`query`, `fields`, `offset`, `startAt`,
  `max`, `total`, `executed`, the page buffer and the callback). Its methods
  are proved against a value-level cursor model (`ValidStep`, `CountOf`,
  `RewindOf`, `Run`, `Foreach`), and whole `foreach` passes are proved about
  that model. The search call is a function parameter answering with a page,
  an `UnauthorizedException`, another exception, or a PHP `Error` that no
  `catch (Exception ...)` stops.
- **The result classes** (`Jira\Projects\Result`, `Jira\Users\Result`). Each
  turns a decoded payload into a total and an ordered list of entities.
- **The entity classes** (`Users\Entity`, `Jira\Users\Entity`,
  `Jira\Projects\Entity`, `Jira\User`). Every key of the record is copied
  onto the object. The two user entities also derive `displayName`, `email`
  and `mode` from a display name: a case-insensitive domain search, a
  `strtok` loop, lower-casing and capitalisation. The two variants are kept
  as separate functions because they differ.
- **The API classes** (`Jira\Users\Api`, `Jira\AuthenticatedFetch\Api`,
  `Projects\Api`, `Jira\Groups\Api`). The model covers endpoint normalisation
  and cache clearing, the request descriptors (verb, path, parameter array)
  of the query methods, the empty-body-means-`false` rule of `api()`/`fetch`,
  and `automapFields`.

PHP values are modelled by `Json.Value`, an ordered PHP array by
`Json.Record`, a sequence of key/value pairs in which the last pair for a
key wins. The PHP quirks the code relies on are written out:
- `strpos(...) != false` reads position 0 as "not found".
- `empty()` drops the token `"0"`.
- `array_pop` on an empty array and a missing `$res[0]` both give null,
  which reads as `""`.
- Comparisons against a null total or page count (`Paging.Below`,
  `Paging.AtLeast`, `Paging.LooselyZero`).
- `$a[$k] = $v` keeps an existing key's position (`Json.Put`).
- `isset($s[$k])` on a string `$s` is true for an integer numeric key inside
  the string, and the read gives that one character (`JiraUser.StringOffset`,
  with PHP 8's numeric-string rules).
- A method's default arguments are Dafny default parameter values
  (`ProjectsApi.DefaultStartAt`, `UsersApi.DefaultFields`, ...).

Files: `wrappers.dfy`, `json.dfy`, `strings.dfy` (PHP string functions, ASCII
only), `http.dfy` (request, reply and outcome types), `paging.dfy`, one file
per PHP class, and `entity_examples.dfy` (worked display names).

## Model

| member | source | states |
|---|---|---|
| PhpStrings.Lower | src/Users/Entity.php:52 | `strtolower` keeps the length and lower-cases each character |
| PhpStrings.Ucfirst | src/Users/Entity.php:87 | `ucfirst` upper-cases the first character and keeps the rest |
| PhpStrings.UcwordsAfter | src/Users/Entity.php:44 | `ucwords` upper-cases exactly the first character and those after a word separator |
| PhpStrings.Ucwords | src/Users/Entity.php:44 | `ucwords` upper-cases the first character and every character after a separator, and keeps the rest and the length |
| PhpStrings.DotsToSpaces | src/Users/Entity.php:44 | `strtr($s, ".", " ")` replaces every period by a space and changes nothing else |
| PhpStrings.Trim | src/Users/Entity.php:52 | after `trim` neither end is a strippable character; a string with clean ends is unchanged |
| PhpStrings.RtrimSlashes | src/Jira/Users/Api.php:128 | `rtrim($url, '/')` is the longest prefix not ending in `/`; only slashes are dropped |
| PhpStrings.RtrimIgnoresSlashes | src/Jira/Users/Api.php:127-128 | a URL with any number of trailing slashes normalises to the same endpoint |
| PhpStrings.RtrimIdempotent | src/Jira/Users/Api.php:128 | normalising a normalised URL changes nothing |
| PhpStrings.StriposFrom | src/Users/Entity.php:40 | the first case-insensitive match at or after a position, or none at all |
| PhpStrings.Stripos | src/Users/Entity.php:40 | `stripos` gives the first case-insensitive match, and `false` exactly when there is none |
| PhpStrings.StrposFrom | src/Users/Entity.php:48 | the first occurrence of the character at or after a position, or none |
| PhpStrings.Strpos | src/Users/Entity.php:48 | `strpos` gives the first occurrence, and `false` exactly when the character is absent |
| PhpStrings.RunEnd | src/Users/Entity.php:51 | the end of the delimiter-free run `strtok` returns |
| PhpStrings.WordsFrom | src/Users/Entity.php:51-57 | successive `strtok` pieces are non-empty and free of the delimiters ` ,.\n\t` |
| PhpStrings.Normalized | src/Users/Entity.php:52-61 | `trim(strtolower(..))` of each piece, `empty()` ones dropped, never more entries than pieces |
| PhpStrings.Tokens | src/Users/Entity.php:50-62 | `$res` holds at most one entry per `strtok` piece, and every entry is a token: non-empty, not "0", trimmed, lower-case |
| PhpStrings.Tokenize | src/Users/Entity.php:50-62 | the `strtok` while-loop builds exactly the token list `Tokens` |
| PhpStrings.ScanRun | src/Users/Entity.php:51 | one `strtok` scan stops at the end of the delimiter-free run |
| PhpStrings.PushToken | src/Users/Entity.php:56-61 | one pass of the loop appends the lower-cased, trimmed piece unless `empty()` drops it |
| PhpStrings.TokenIsNormal | src/Users/Entity.php:52 | lower-casing and trimming a token again changes nothing |
| PhpStrings.NormalizedWordIsToken | src/Users/Entity.php:52-55 | a kept piece is a token: non-empty, not "0", trimmed, lower-case |
| PhpStrings.LowerWordChars | src/Users/Entity.php:58 | a lower-cased piece has only lower-case, non-delimiter characters |
| PhpStrings.NormalizedAreTokens | src/Users/Entity.php:50-62 | every entry the loop keeps is a token |
| PhpStrings.WordsOfPair | src/Users/Entity.php:51-57 | two words joined by one delimiter come back as exactly those two pieces |
| PhpStrings.TokensOfPair | src/Users/Entity.php:50-62 | two tokens joined by one delimiter tokenise back to those two tokens |
| PhpStrings.TokensOfWord | src/Users/Entity.php:50-62 | a single token is its own token list |
| Json.Entries | src/Jira/Projects/Entity.php:42 | `foreach` over an array visits its values in order, list indexes as keys |
| Json.Values | src/Jira/Users/Result.php:109 | the values `foreach` visits; a scalar yields none |
| Json.StringOf | src/Users/Entity.php:40 | a scalar read as a string (null as ""); an array has no string form |
| Json.Lookup | src/Jira/User.php:291-292 | `$rec[$key]` is set exactly when the key occurs |
| Json.LookupUnique | src/Jira/Users/Api.php:170-175 | in an array literal with distinct keys each key reads as its own value |
| Json.LookupUnderPrefix | src/Projects/Api.php:170-175 | a leading pair does not affect lookups of other keys |
| Json.Replace | src/Jira/Users/Api.php:231 | overwriting a key changes its value in place and keeps the order |
| Json.Put | src/Jira/Users/Api.php:231-233 | `$x[$k] = $v` overwrites in place for an existing key and appends a new key |
| Json.LookupPut | src/Jira/Users/Api.php:231-233 | after `$x[$k] = $v`, `$k` reads `$v` and every other key reads as before |
| Json.LookupReplace | src/Jira/Users/Api.php:231 | overwriting in place: the key reads the new value, other keys as before |
| Json.LookupSkips | src/Jira/User.php:291 | a last pair under another key does not affect a lookup |
| Json.PutKeys | src/Jira/Users/Api.php:231-233 | the assignment adds exactly its key |
| Json.PutUnique | src/Jira/Users/Api.php:231-233 | keys stay distinct through an assignment |
| Json.KeysCons | src/Projects/Api.php:170-175 | the keys of a pair in front of an array |
| Json.FoldAppend | src/Jira/Projects/Entity.php:42-44 | running the property loop over two parts is running it over each in turn |
| Json.Fold | src/Jira/Projects/Entity.php:42-44 | after the property loop, everything the last pair wrote holds what it wrote |
| Json.CopyAll | src/Jira/Projects/Entity.php:42-44 | copying every key onto the object gives a property for exactly the record's keys |
| Json.FoldKeys | src/Jira/Projects/Entity.php:42-44 | a property exists exactly when some pair of the record writes it |
| Json.LastWriterWins | src/Users/Entity.php:37-38 | a property written by one pair and by no later pair keeps that pair's value |
| Json.FoldCopiesKey | src/Users/Entity.php:38 | a property only its own key writes reads as the record's last value for it, null when absent |
| Json.CopyAllLookup | src/Jira/Projects/Entity.php:42-44 | copying every key gives exactly the record's keys, each with its last value |
| Json.CopyAllProp | src/Jira/Projects/Entity.php:42-44 | a copied property reads as the record's value, null for a missing key |
| Json.Assign | src/Jira/Projects/Entity.php:42-44 | the `foreach` assigning `$this->$key = $value` builds exactly `CopyAll` |
| DisplayName.BranchOf | src/Users/Entity.php:40-49 | address branch exactly when the domain occurs case-insensitively; space branch exactly when a space occurs and the first is not at index 0 |
| DisplayName.FromAddress | src/Users/Entity.php:42-46 | the address branch keeps the value as `email` and sets mode "email" |
| DisplayName.Pop | src/Users/Entity.php:64 | `array_pop` gives the last entry and the shortened list, or null on an empty list |
| DisplayName.First | src/Jira/Users/Entity.php:89 | `$res[0]` of a non-empty token list is its first entry |
| DisplayName.Write | src/Users/Entity.php:38-97 | one pass of the loop always writes its key |
| DisplayName.WriteDisplayName | src/Users/Entity.php:38-97 | a `displayName` pair writes the (possibly renamed) display name, `email` and `mode` |
| DisplayName.WriteOther | src/Users/Entity.php:38-39 | any other pair writes just its value under its key |
| DisplayName.FoldStep | src/Users/Entity.php:37-38 | each pair's writes land on top of the earlier ones |
| DisplayName.Build | src/Users/Entity.php:35-101 | the constructor fails exactly when some `displayName` holds an array; otherwise every key of the record is a property |
| DisplayName.PropertyNames | src/Users/Entity.php:37-97 | the object's properties are the record's keys plus `email` and `mode` exactly when `displayName` is present |
| DisplayName.OtherPropertiesVerbatim | src/Users/Entity.php:37-38 | every property but the three derived ones is the record's value, null when absent |
| DisplayName.DerivedWhenLast | src/Users/Entity.php:37-97 | a `displayName` that no later pair touches determines the three derived properties; later pairs overwrite them otherwise |
| DisplayName.MatchStartsWithAt | src/Users/Entity.php:40 | a match of the domain starts with `@` |
| DisplayName.NoAtNoDomain | src/Users/Entity.php:40 | without an `@` the domain is never found |
| DisplayName.DomainAtEnd | src/Users/Entity.php:40 | an `@`-free name followed by the domain is matched exactly at the join |
| DisplayName.DomainFound | src/Users/Entity.php:67 | a derived address always contains the domain |
| DisplayName.SpacedSpelling | src/Users/Entity.php:48-62 | "first last" takes the space branch and tokenises to its two words |
| DisplayName.DottedSpelling | src/Users/Entity.php:71-84 | "first.last" takes the dots branch and tokenises to its two words |
| DisplayName.SpacedBranch | src/Users/Entity.php:48-49 | "first last" has no domain and a space after position 0 |
| DisplayName.DottedBranch | src/Users/Entity.php:48-49 | "first.last" has neither a domain nor a space |
| DisplayName.SpacedDots | src/Users/Entity.php:44 | the period of "first.last" becomes a space |
| DisplayName.CapitalisedPair | src/Users/Entity.php:44 | `ucwords("first last")` capitalises exactly the two initials |
| DisplayName.AddressSpelling | src/Users/Entity.php:40-46 | "first.last@redflaggroup.com" is found at the join and renamed "First Last" |
| DisplayName.JoinIsNormal | src/Users/Entity.php:89 | `trim(strtolower(..))` of two joined tokens changes nothing |
| UsersEntity.Inferred | src/Users/Entity.php:39-96 | mode "email" exactly when the domain occurs, then `email` is the value; every address is the fallback or contains the domain |
| UsersEntity.FromSpacedName | src/Users/Entity.php:63-70 | space branch: name kept, mode "name+space", address either `unknown@example.com` or one containing the domain |
| UsersEntity.FromDottedName | src/Users/Entity.php:85-94 | dots branch: mode "name+dots", address either `unknown@example.com` or one containing the domain |
| UsersEntity.Modes | src/Users/Entity.php:40-95 | the mode is one of three; "name+space" exactly for a non-leading space; outside the address branch the fallback is used exactly for fewer than two tokens |
| UsersEntity.Infer | src/Users/Entity.php:40-95 | the step-by-step `displayName` branch computes `Inferred` |
| UsersEntity.SpacedName | src/Users/Entity.php:63-70 | the pop-then-address statements compute `FromSpacedName` |
| UsersEntity.DottedName | src/Users/Entity.php:85-94 | the pop-then-rename statements compute `FromDottedName` |
| UsersEntity.Construct | src/Users/Entity.php:35-101 | the constructor throws exactly when a `displayName` holds an array; otherwise it leaves the loop's properties |
| UsersEntity.Apply | src/Users/Entity.php:38-97 | one loop pass: a `TypeError` for an array `displayName`, else the pass's writes |
| UsersEntity.New | src/Users/Entity.php:35-101 | the constructor loop builds `Construct(user)` |
| UsersEntity.IdIsAccountId | src/Users/Entity.php:109-112 | `getId()` is the record's `accountId`, null when absent |
| UsersEntity.GetId | src/Users/Entity.php:109-112 | `getId()` is the `accountId` property, null when undefined |
| UsersEntity.SpellingsAgree | src/Users/Entity.php:40-95 | "a b", "a.b" and "a.b@redflaggroup.com" all get a.b@redflaggroup.com; the last two are renamed "A B" |
| UsersEntity.AddressIsStable | src/Users/Entity.php:40-46 | a derived address read back as a display name is kept as the address |
| UsersEntity.SingleWord | src/Users/Entity.php:85-94 | one word gets `unknown@example.com` and keeps its name |
| UsersEntity.OnlyFirstAndLast | src/Users/Entity.php:64-89 | words between the first and the last never reach the outputs |
| JiraUsersEntity.Inferred | src/Jira/Users/Entity.php:39-93 | mode "email" exactly when the domain occurs, then `email` is the value; every address contains the domain |
| JiraUsersEntity.FromSpacedName | src/Jira/Users/Entity.php:63-69 | space branch: name kept, mode "name+space", and the address always contains the domain |
| JiraUsersEntity.FromDottedName | src/Jira/Users/Entity.php:84-91 | dots branch: mode "name+dots" and an address containing the domain |
| JiraUsersEntity.Modes | src/Jira/Users/Entity.php:40-91 | the mode is one of three and always the same as in the other variant |
| JiraUsersEntity.Infer | src/Jira/Users/Entity.php:39-93 | the step-by-step `displayName` branch computes `Inferred` |
| JiraUsersEntity.SpacedName | src/Jira/Users/Entity.php:63-69 | the address statements compute `FromSpacedName` |
| JiraUsersEntity.DottedName | src/Jira/Users/Entity.php:84-91 | the rename and the second `array_pop` compute `FromDottedName` |
| JiraUsersEntity.DottedLocal | src/Jira/Users/Entity.php:89 | the address built after the second pop is `first.last` of the remaining tokens, or "." when none remain |
| JiraUsersEntity.Construct | src/Jira/Users/Entity.php:35-98 | throws exactly for an array `displayName`; otherwise the loop's properties |
| JiraUsersEntity.Apply | src/Jira/Users/Entity.php:38-94 | one loop pass: `TypeError` or the pass's writes |
| JiraUsersEntity.New | src/Jira/Users/Entity.php:35-98 | the constructor loop builds `Construct(user)` |
| JiraUsersEntity.IdIsAccountId | src/Jira/Users/Entity.php:106-109 | `getId()` is the record's `accountId`, null when absent |
| JiraUsersEntity.GetId | src/Jira/Users/Entity.php:106-109 | `getId()` is the `accountId` property, null when undefined |
| JiraUsersEntity.Spellings | src/Jira/Users/Entity.php:40-91 | "a b" and the address give a.b@, but "a.b" gives a.a@ after the rename |
| JiraUsersEntity.SingleWord | src/Jira/Users/Entity.php:84-90 | one word w gets w.w@redflaggroup.com and keeps its name |
| JiraUsersEntity.EmptyName | src/Jira/Users/Entity.php:71-90 | an empty display name gets .@redflaggroup.com here and the fallback in the other variant |
| JiraUsersEntity.NoWords | src/Jira/Users/Entity.php:84-90 | a dotted name with no word gets .@redflaggroup.com |
| JiraUsersEntity.AgreeWithUsersEntity | src/Jira/Users/Entity.php:40-69 | the variants agree on addresses and on spaced names of two or more words |
| JiraUsersEntity.DisagreeWithUsersEntity | src/Jira/Users/Entity.php:63-90 | they differ on short spaced names and on "a.b" with a ≠ b |
| EntityExamples.AddressExample | src/Users/Entity.php:40-46 | "john.doe@redflaggroup.com" is renamed "John Doe" and kept as the address, in both variants |
| EntityExamples.DottedExample | src/Jira/Users/Entity.php:84-91 | "john.doe" gives john.doe@ in one variant and john.john@ in the other |
| EntityExamples.SpacedExample | src/Users/Entity.php:48-70 | "Jane Smith" keeps its name and gets jane.smith@redflaggroup.com |
| EntityExamples.OneWordExample | src/Jira/Users/Entity.php:84-90 | "onlyoneword" gives onlyoneword.onlyoneword@ here and the fallback in the other variant |
| EntityExamples.DotsOnlyExample | src/Jira/Users/Entity.php:71-90 | "..." gives .@redflaggroup.com |
| ProjectsEntity.Construct | src/Jira/Projects/Entity.php:40-45 | the project has exactly the record's keys |
| ProjectsEntity.New | src/Jira/Projects/Entity.php:40-45 | the constructor loop gives each key its last value and derives nothing |
| ProjectsEntity.IdIsProjectId | src/Jira/Projects/Entity.php:53-56 | `getId()` is the record's `projectId`, null when absent |
| ProjectsEntity.GetId | src/Jira/Projects/Entity.php:53-56 | `getId()` is the `projectId` property, null when undefined |
| ProjectsEntity.GetMembers | src/Jira/Projects/Entity.php:66-69 | `getMembers($api)` ignores the API and returns the project id |
| ProjectsEntity.EmptyRecord | src/Jira/Projects/Entity.php:40-45 | an empty record gives no properties |
| JiraUser.Construct | src/Jira/User.php:63-68 | the user has exactly the record's keys |
| JiraUser.New | src/Jira/User.php:63-68 | the constructor loop copies every key with its last value |
| JiraUser.GetId | src/Jira/User.php:85-88 | `getId()` is the `id` property, null when undefined |
| JiraUser.GetKey | src/Jira/User.php:75-78 | `getKey()` is the `key` property, null when undefined |
| JiraUser.GetSelf | src/Jira/User.php:95-98 | `getSelf()` is the `self` property, null when undefined |
| JiraUser.GetFields | src/Jira/User.php:105-108 | `getFields()` is the `fields` property, null when undefined |
| JiraUser.GetExpandedInformation | src/Jira/User.php:277-280 | `getExpandedInformation()` is the `expandedInformation` property, null when undefined |
| JiraUser.PlainGetters | src/Jira/User.php:75-108 | `getId`, `getKey`, `getSelf`, `getFields`, `getExpandedInformation` return the record's values, null when absent |
| JiraUser.IntegerOffset | src/Jira/User.php:291-292 | a key indexes a string only as an integer numeric string: whitespace around it, an optional sign, digits |
| JiraUser.StringOffset | src/Jira/User.php:291-292 | on a string, `isset` and the read give the one character at the offset, counted from the end when negative, and null outside the string |
| JiraUser.OffsetSpelling | src/Jira/User.php:291-292 | the decimal spelling of `n` reads as offset `n`, and `-` before it as `-n` |
| JiraUser.Get | src/Jira/User.php:289-296 | `get(k)` is non-null exactly when `fields` is an array with a non-null value at k (then that value) or a string with a character at offset k (then that character) |
| JiraUser.StringFieldsByOffset | src/Jira/User.php:289-296 | with a string under `fields`, `get("i")` is its i-th character and `get("-i")` the i-th from the end |
| JiraUser.GetNamed | src/Jira/User.php:115-269 | each named getter is `get` of its fixed label |
| JiraUser.LabelsDistinct | src/Jira/User.php:115-269 | different named getters read different labels |
| JiraUser.NamedGetterReadsFields | src/Jira/User.php:289-296 | a named getter reads the `fields` object's value under its label, null when missing |
| JiraUser.NoFieldsNoValues | src/Jira/User.php:115-296 | without an array under `fields` every named getter gives null, and `get` gives null for every key unless `fields` is a string |
| ProjectsResult.FromPayload | src/Jira/Projects/Result.php:74-93 | the constructor throws exactly when `projects` is non-empty and not an array of arrays |
| ProjectsResult.FromPayloadConsistent | src/Jira/Projects/Result.php:76-92 | the total is unset with no entities, or equals the number of entities |
| ProjectsResult.EntitiesOf | src/Jira/Projects/Result.php:83-86 | one entity per record, or failure exactly when some record is not an array |
| ProjectsResult.New | src/Jira/Projects/Result.php:74-93 | the constructor's branches compute `FromPayload` |
| ProjectsResult.Collect | src/Jira/Projects/Result.php:82-86 | the `foreach` appends one entity per record and counts them |
| ProjectsResult.EmptyPayload | src/Jira/Projects/Result.php:89-92 | an empty payload gives total 0 and no entities |
| ProjectsResult.EntitiesFollowRecords | src/Jira/Projects/Result.php:78-86 | a list of records gives one entity each, in order, with the record's keys and values, and the total is their number |
| ProjectsResult.MissingProjects | src/Jira/Projects/Result.php:76-88 | a non-empty payload without usable `projects` gives no entities and no total |
| ProjectsResult.GetCount | src/Jira/Projects/Result.php:110-113 | `getCount()` equals `getTotal()` |
| ProjectsResult.GetResult | src/Jira/Projects/Result.php:130-133 | `getResult()` equals `getEntities()` |
| ProjectsResult.GetTotal | src/Jira/Projects/Result.php:100-103 | `getTotal()` returns the stored total |
| ProjectsResult.GetEntities | src/Jira/Projects/Result.php:120-123 | `getEntities()` returns the stored entities |
| UsersResult.FromPayload | src/Jira/Users/Result.php:73-77 | the total is the number of top-level entries and the payload is kept |
| UsersResult.PayloadKept | src/Jira/Users/Result.php:84-87 | `getResult()` is the payload and `getTotal()` its entry count |
| UsersResult.GetTotal | src/Jira/Users/Result.php:84-87 | `getTotal()` returns the stored total |
| UsersResult.GetResult | src/Jira/Users/Result.php:124-127 | `getResult()` returns the stored payload |
| UsersResult.Users | src/Jira/Users/Result.php:104-117 | one user per entry, or failure exactly when an entry is not an array |
| UsersResult.GetUsers | src/Jira/Users/Result.php:104-117 | the `foreach` builds `Users(r)` |
| UsersResult.GetCount | src/Jira/Users/Result.php:94-97 | `getCount()` fails where `getUsers()` fails and is otherwise the entry count |
| UsersResult.CountIsTotal | src/Jira/Users/Result.php:94-97 | on a constructed result `count(getUsers())` equals `getTotal()` |
| UsersResult.UsersFollowEntries | src/Jira/Users/Result.php:109-111 | the i-th user holds exactly the keys and values of the i-th entry |
| UsersResult.EmptyPayload | src/Jira/Users/Result.php:75-77 | an empty payload gives total 0 and no users |
| UsersApi.Api.Blank | src/Jira/Users/Api.php:80-86 | the object before its constructor's first statement: no endpoint, options 0 |
| UsersApi.Api.New | src/Jira/Users/Api.php:80-94 | construction stores the trimmed endpoint and then always fails on the missing `clearLocalCaches` |
| UsersApi.Api.SetOptions | src/Jira/Users/Api.php:103-106 | stores the options verbatim |
| UsersApi.Api.GetEndpoint | src/Jira/Users/Api.php:113-116 | returns the endpoint |
| UsersApi.Api.SetEndpoint | src/Jira/Users/Api.php:125-134 | stores the trimmed URL; fails exactly when it differs from the old endpoint |
| UsersApi.Api.Sending | src/Jira/Users/Api.php:199-207 | the request goes out with the endpoint, no file and no debug |
| UsersApi.Api.Respond | src/Jira/Users/Api.php:193-215 | empty body gives `false`; client exceptions pass through; a non-empty body gives a result of the decoded value, or a `TypeError` when that is not an array |
| UsersApi.Api.AutomapFields | src/Jira/Users/Api.php:224-241 | the renaming loop builds `Automapped(user, names)` |
| UsersApi.UsersRequest | src/Jira/Users/Api.php:147-150 | GET /rest/api/latest/users/<key> with only `expand`, empty by default |
| UsersApi.SearchRequest | src/Jira/Users/Api.php:165-177 | GET /rest/api/latest/users/search with `username`, `startAt`, `maxResults` and the fixed `expand` |
| UsersApi.SearchIgnoresFields | src/Jira/Users/Api.php:165-177 | the `$fields` argument does not change the request |
| UsersApi.DefaultArguments | src/Jira/Users/Api.php:147-177 | `search` with the user name alone asks for `startAt` 0 and `maxResults` 1000, whatever `fields`; `getUsers` sends an empty `expand` |
| UsersApi.NewName | src/Jira/Users/Api.php:230-233 | a cached key is renamed to its cache entry, any other key is kept |
| UsersApi.Relabel | src/Jira/Users/Api.php:229-235 | every pair renamed, values kept, in order |
| UsersApi.RenamedLookup | src/Jira/Users/Api.php:229-235 | each name of `$x` reads as the last pair renamed to it: on a collision the later key wins |
| UsersApi.RenamedUnique | src/Jira/Users/Api.php:229-235 | `$x` never holds a name twice |
| UsersApi.EmptyCacheKeepsFields | src/Jira/Users/Api.php:229-235 | with no cached names, `$x` reads exactly as `fields` |
| UsersApi.Automapped | src/Jira/Users/Api.php:224-241 | a record whose `fields` is unset is returned as it is; otherwise `fields` reads as the renamed array |
| UsersApi.AutomapRewritesFields | src/Jira/Users/Api.php:226-240 | otherwise only `fields` changes, to the renamed array, and the keys are the same |
| FetchApi.Api.constructor | src/Jira/AuthenticatedFetch/Api.php:102-115 | the trimmed endpoint is stored and the caches are cleared |
| FetchApi.Api.SetOptions | src/Jira/AuthenticatedFetch/Api.php:124-127 | stores the options verbatim and touches nothing else |
| FetchApi.Api.GetEndpoint | src/Jira/AuthenticatedFetch/Api.php:134-137 | returns the endpoint |
| FetchApi.Api.ClearLocalCaches | src/Jira/AuthenticatedFetch/Api.php:162-168 | all four caches become null; endpoint and options are kept |
| FetchApi.Api.SetEndpoint | src/Jira/AuthenticatedFetch/Api.php:146-155 | an unchanged trimmed URL leaves everything alone; a changed one is stored and clears all caches |
| FetchApi.Api.Fetch | src/Jira/AuthenticatedFetch/Api.php:191-215 | `false` exactly for an empty body, the body itself otherwise, client exceptions pass through |
| FetchApi.Api.GetHtml | src/Jira/AuthenticatedFetch/Api.php:171-174 | `getHtml` is `fetch(GET, url, [], true)` |
| FetchApi.Api.ReturnAsArrayIgnored | src/Jira/AuthenticatedFetch/Api.php:191-215 | the `$return_as_array` flag changes nothing |
| FetchApi.Api.HtmlIsRawBody | src/Jira/AuthenticatedFetch/Api.php:171-174 | `getHtml` returns the page undecoded |
| ProjectsApi.Api.constructor | src/Projects/Api.php:80-94 | the trimmed endpoint is stored |
| ProjectsApi.Api.SetOptions | src/Projects/Api.php:103-106 | stores the options verbatim |
| ProjectsApi.Api.GetEndpoint | src/Projects/Api.php:113-116 | returns the endpoint |
| ProjectsApi.Api.SetEndpoint | src/Projects/Api.php:125-133 | stores the trimmed URL and clears nothing |
| ProjectsApi.Api.Sending | src/Projects/Api.php:266-274 | the request goes out with the endpoint, no file and no debug |
| ProjectsApi.Api.Respond | src/Projects/Api.php:259-288 | empty body gives `false`; raw gives the decoded value; otherwise a result, or a `TypeError` the result constructor raises |
| ProjectsApi.EntitiesRequest | src/Projects/Api.php:146-149 | GET /rest/api/latest/groups/<key> with only `expand` |
| ProjectsApi.PagingParams | src/Projects/Api.php:195-200 | `startAt`, `maxResults` and the fixed `expand`, each once |
| ProjectsApi.QueryParams | src/Projects/Api.php:168-175 | `jql` first, then the paging parameters |
| ProjectsApi.SearchRequest | src/Projects/Api.php:164-176 | GET /rest/api/latest/project/search with exactly `jql`, `startAt`, `maxResults` (defaults 0 and 1000) and the fixed `expand` |
| ProjectsApi.AllRequest | src/Projects/Api.php:191-202 | GET /rest/api/latest/project with exactly `startAt`, `maxResults` (defaults 0 and 1000) and `expand` |
| ProjectsApi.MembersRequest | src/Projects/Api.php:215-227 | GET /rest/api/latest/project/member with exactly `jql`, `startAt`, `maxResults` (defaults 0 and 1000) and `expand` |
| ProjectsApi.ProjectRequest | src/Projects/Api.php:237-245 | GET /rest/api/2/project/<key> with the fixed `expand` |
| ProjectsApi.AllIsSearchWithoutQuery | src/Projects/Api.php:164-202 | `all` sends what `search` sends, without `jql` |
| ProjectsApi.MembersIsSearchElsewhere | src/Projects/Api.php:164-227 | `getMembers` sends the parameters of `search` to another path |
| ProjectsApi.DefaultArguments | src/Projects/Api.php:146-227 | without a window `search`, `all` and `getMembers` ask for `startAt` 0 and `maxResults` 1000; `getEntities` sends an empty `expand` |
| GroupsApi.Api.constructor | src/Jira/Groups/Api.php:80-94 | the trimmed endpoint is stored |
| GroupsApi.Api.SetOptions | src/Jira/Groups/Api.php:103-106 | stores the options verbatim |
| GroupsApi.Api.GetEndpoint | src/Jira/Groups/Api.php:113-116 | returns the endpoint |
| GroupsApi.Api.SetEndpoint | src/Jira/Groups/Api.php:125-133 | stores the trimmed URL and clears nothing |
| GroupsApi.Api.Sending | src/Jira/Groups/Api.php:219-227 | the request goes out with the endpoint, no file and no debug |
| GroupsApi.Api.Respond | src/Jira/Groups/Api.php:213-238 | `false` exactly for an empty body; client exceptions pass through; otherwise a result of the decoded value |
| GroupsApi.EntitiesRequest | src/Jira/Groups/Api.php:146-149 | GET /rest/api/latest/groups/<key> with only `expand` |
| GroupsApi.QueryParams | src/Jira/Groups/Api.php:168-175 | the query under its name, then `startAt`, `maxResults`, `expand` |
| GroupsApi.SearchRequest | src/Jira/Groups/Api.php:164-176 | GET /rest/api/latest/groups/picker, exactly the parameters `username` (the query), `startAt`, `maxResults` (defaults 0 and 1000) and the fixed `expand`, each once |
| GroupsApi.MembersRequest | src/Jira/Groups/Api.php:188-200 | GET /rest/api/latest/group/member, exactly the parameters `groupname` (the query), `startAt`, `maxResults` (defaults 0 and 1000) and the fixed `expand`, each once |
| GroupsApi.SearchAndMembersDiffer | src/Jira/Groups/Api.php:164-200 | the two requests differ only in path and in the query's name |
| GroupsApi.DefaultArguments | src/Jira/Groups/Api.php:146-200 | without a window `search` and `getMembers` ask for `startAt` 0 and `maxResults` 1000; `getEntities` sends an empty `expand` |
| Paging.CallsOf | src/Projects/Walker.php:213 | a step's search as a list: empty exactly when none was made |
| Paging.KeyOf | src/Projects/Walker.php:186-194 | `key()` is 0 before the first page, then offset plus the pages already passed |
| Paging.SomesAt | src/Projects/Walker.php:156-167 | what `current()` yields for each entity, in order |
| ProjectsWalker.Initial | src/Projects/Walker.php:127-134 | a fresh walker: no query, no total, page size 1000000 unless numeric |
| ProjectsWalker.Key | src/Projects/Walker.php:186-194 | `key()` is 0 before the first page, then the offset plus `(startAt - 1) * perPage` |
| ProjectsWalker.CurrentOf | src/Projects/Walker.php:156-167 | the entity at the offset, none when out of range |
| ProjectsWalker.NextOf | src/Projects/Walker.php:175-178 | `next()` only moves the offset |
| ProjectsWalker.WithResult | src/Projects/Walker.php:319-326 | `setResult` copies total, count and entities, resets the offset and adds one page |
| ProjectsWalker.RewindOf | src/Projects/Walker.php:267-276 | `rewind()` resets everything but query, fields and page size |
| ProjectsWalker.Observed | src/Projects/Api.php:259-288 | what the API's `search` means to `valid()`: a result is a page; `false`, a raw value or a `TypeError` is a PHP `Error`; client exceptions as they are |
| ProjectsWalker.ValidStep | src/Projects/Walker.php:205-259 | `valid()`: the usage error exactly before `push`; any search from 0; no search or a failed one leaves the state unchanged |
| ProjectsWalker.CountOf | src/Projects/Walker.php:285-292 | `count()`: a set total is returned without a search; otherwise the total after `valid()`, or its exception with the state unchanged |
| ProjectsWalker.Run | src/Projects/Walker.php:156-259 | the `valid()`/`current()`/`next()` loop: fewer entries than `valid()` calls, at most one search per call, ends on a `valid()` that is not true |
| ProjectsWalker.Foreach | src/Projects/Walker.php:156-276 | a `foreach` runs the loop from a fresh walker holding only the query, the fields and the page size |
| ProjectsWalker.Walker.constructor | src/Projects/Walker.php:127-134 | the walker starts in `Initial(perPage)` without a callback |
| ProjectsWalker.Walker.Push | src/Projects/Walker.php:144-148 | stores query and fields (null by default) only |
| ProjectsWalker.Walker.Current | src/Projects/Walker.php:156-167 | the entity at the offset, through the delegate when one is set |
| ProjectsWalker.Walker.Next | src/Projects/Walker.php:175-178 | the state becomes `NextOf` |
| ProjectsWalker.Walker.GetKey | src/Projects/Walker.php:186-194 | returns `Key` of the state |
| ProjectsWalker.Walker.SetResult | src/Projects/Walker.php:319-326 | the state becomes `WithResult` |
| ProjectsWalker.Walker.Valid | src/Projects/Walker.php:205-259 | verdict, search and new state are those of `ValidStep` |
| ProjectsWalker.Walker.Rewind | src/Projects/Walker.php:267-276 | the state becomes `RewindOf`; the callback is kept |
| ProjectsWalker.Walker.Count | src/Projects/Walker.php:285-292 | outcome, search and new state are those of `CountOf` |
| ProjectsWalker.Walker.SetDelegate | src/Projects/Walker.php:302-310 | a callable is stored; anything else is refused and nothing changes |
| ProjectsWalker.UsageErrorBeforePush | src/Projects/Walker.php:207-209 | before `push`, `valid()` and `count()` throw the usage error and change nothing |
| ProjectsWalker.FirstValid | src/Projects/Walker.php:211-222 | the first `valid()` searches from 0, marks executed and is false exactly when the page's total is unset or zero |
| ProjectsWalker.AlwaysFromZero | src/Projects/Walker.php:213-236 | every search `valid()` makes starts at 0 |
| ProjectsWalker.Failures | src/Projects/Walker.php:224-291 | `UnauthorizedException` is rethrown; other exceptions are logged and give false; a PHP `Error` escapes `valid()` and `count()`; the state is unchanged |
| ProjectsWalker.AnswerFromPage | src/Projects/Walker.php:250-256 | with no search due, `valid()` compares the position with the total |
| ProjectsWalker.KeyMoves | src/Projects/Walker.php:175-194 | `key()` is 0 before the first page and `next()` moves it by one after |
| ProjectsWalker.RewindForgets | src/Projects/Walker.php:267-276 | rewinding forgets everything but query, fields and page size |
| ProjectsWalker.RunKeeps | src/Projects/Walker.php:205-259 | a pass keeps query, fields and page size |
| ProjectsWalker.SecondPassRepeats | src/Projects/Walker.php:267-276 | a second `foreach` repeats the first exactly |
| ProjectsWalker.CountKnown | src/Projects/Walker.php:287-291 | with a total set, `count()` returns it without searching |
| ProjectsWalker.SecondCountNoFetch | src/Projects/Walker.php:285-292 | after a `count()` that fetched, another searches nothing and returns the same total |
| ProjectsWalker.RestOfPage | src/Projects/Walker.php:234-256 | on a consistent first page the walk yields the rest of it and never searches again |
| ProjectsWalker.PageStep | src/Projects/Walker.php:251-252 | inside a consistent page `valid()` answers true without a search and the entity at the offset is yielded |
| ProjectsWalker.PageEnd | src/Projects/Walker.php:251-256 | at the end of a consistent page `valid()` answers false without a search |
| ProjectsWalker.FullPassYieldsFirstPage | src/Projects/Walker.php:205-259 | a full `foreach` yields exactly the first page's entities, in order, with one search from 0 |
| UsersWalker.Initial | src/Jira/Users/Walker.php:123-130 | a fresh walker: no query, no total, page size 50 unless numeric |
| UsersWalker.Key | src/Jira/Users/Walker.php:182-190 | `key()` is 0 before the first page, then the offset plus `(startAt - 1) * perPage` |
| UsersWalker.CurrentOf | src/Jira/Users/Walker.php:152-163 | the record at the offset, none when out of range |
| UsersWalker.NextOf | src/Jira/Users/Walker.php:171-174 | `next()` only moves the offset |
| UsersWalker.WithResult | src/Jira/Users/Walker.php:314-321 | `setResult` stores total, count and records, resets the offset and adds one page |
| UsersWalker.RewindOf | src/Jira/Users/Walker.php:263-272 | `rewind()` resets everything but query, fields and page size |
| UsersWalker.ValidStep | src/Jira/Users/Walker.php:201-255 | `valid()`: the usage error exactly before `push`; any search at `key()`; no search or a failed one leaves the state unchanged |
| UsersWalker.CountOf | src/Jira/Users/Walker.php:280-287 | `count()`: a set total is returned without a search; otherwise the total after `valid()`, or its exception with the state unchanged |
| UsersWalker.Run | src/Jira/Users/Walker.php:152-255 | the `valid()`/`current()`/`next()` loop: fewer records than `valid()` calls, at most one search per call, ends on a `valid()` that is not true |
| UsersWalker.Foreach | src/Jira/Users/Walker.php:152-272 | a `foreach` runs the loop from a fresh walker holding only the query, the fields and the page size |
| UsersWalker.Walker.constructor | src/Jira/Users/Walker.php:123-130 | the walker starts in `Initial(perPage)` without a callback |
| UsersWalker.Walker.Push | src/Jira/Users/Walker.php:140-144 | stores query and fields (null by default) only |
| UsersWalker.Walker.Current | src/Jira/Users/Walker.php:152-163 | the record at the offset (null when missing), through the delegate when one is set |
| UsersWalker.Walker.Next | src/Jira/Users/Walker.php:171-174 | the state becomes `NextOf` |
| UsersWalker.Walker.GetKey | src/Jira/Users/Walker.php:182-190 | returns `Key` of the state |
| UsersWalker.Walker.SetResult | src/Jira/Users/Walker.php:314-321 | the state becomes `WithResult` |
| UsersWalker.Walker.Valid | src/Jira/Users/Walker.php:201-255 | verdict, search and new state are those of `ValidStep` |
| UsersWalker.Walker.Rewind | src/Jira/Users/Walker.php:263-272 | the state becomes `RewindOf`; the callback is kept |
| UsersWalker.Walker.Count | src/Jira/Users/Walker.php:280-287 | outcome, search and new state are those of `CountOf` |
| UsersWalker.Walker.SetDelegate | src/Jira/Users/Walker.php:297-305 | a callable is stored; anything else is refused and nothing changes |
| UsersWalker.UsageErrorBeforePush | src/Jira/Users/Walker.php:203-205 | before `push`, `valid()` and `count()` throw the usage error and change nothing |
| UsersWalker.PageSize | src/Jira/Users/Walker.php:87 | the page size is 50 unless the constructor gets a number |
| UsersWalker.FirstValid | src/Jira/Users/Walker.php:207-218 | the first `valid()` searches from `key()` = 0 with page size and fields, marks executed, and is false exactly when the total is unset or zero |
| UsersWalker.NextPageAtKey | src/Jira/Users/Walker.php:230-233 | a later search happens exactly when the page is used up and `key()` is below the total, and starts at `key()` |
| UsersWalker.AnswerFromPage | src/Jira/Users/Walker.php:246-253 | with no search due, `valid()` compares the position with the total |
| UsersWalker.Failures | src/Jira/Users/Walker.php:220-286 | `UnauthorizedException` is rethrown; other exceptions are logged and give false; a PHP `Error` escapes `valid()` and `count()`; the state is unchanged |
| UsersWalker.ErrorOnEverySearch | src/Jira/Users/Walker.php:207-226 | for a search that raises a PHP `Error` on every call, a `foreach` after `push` searches once from 0, yields nothing and ends in that `Error` |
| UsersWalker.RewindClears | src/Jira/Users/Walker.php:263-272 | `rewind()` empties the page and unsets total and executed |
| UsersWalker.LaterStrides | src/Jira/Users/Walker.php:230-233 | the later searches start at s+P, s+2P, …, each below the total |
| UsersWalker.TurnPage | src/Jira/Users/Walker.php:230-235 | at the end of a full page short of the total, `valid()` fetches the next page at `key()` |
| UsersWalker.WithinPage | src/Jira/Users/Walker.php:246-249 | inside a page, `valid()` is true without searching |
| UsersWalker.AcrossPages | src/Jira/Users/Walker.php:230-235 | crossing a page yields the next page's first record after one search |
| UsersWalker.EndOfWalk | src/Jira/Users/Walker.php:250-252 | at the end of the last page, `valid()` is false without searching |
| UsersWalker.WalkCons | src/Jira/Users/Walker.php:201-255 | a step of `valid()` that yields a record and searches some pages, in front of a walk, is a walk |
| UsersWalker.RestWithinPage | src/Jira/Users/Walker.php:246-249 | within a page, the record at the offset goes in front of the rest of the walk, with no search |
| UsersWalker.WalkInPage | src/Jira/Users/Walker.php:246-249 | the record at `i` yielded without a search, in front of the walk from `i + 1`, is the walk from `i` |
| UsersWalker.WalkNewPage | src/Jira/Users/Walker.php:230-235 | the search of the next page and its first record, in front of the walk after it, is the walk from the page end |
| UsersWalker.RestOfNextPage | src/Jira/Users/Walker.php:230-235 | at the end of a page short of the total, `valid()` searches at `key()` and the rest of the walk goes on one into the new page |
| UsersWalker.RestAcrossPages | src/Jira/Users/Walker.php:230-235 | at the end of a page short of the total, the next page's first record and its search at `key()` go in front of the rest of the walk |
| UsersWalker.RestOfWalk | src/Jira/Users/Walker.php:228-255 | from any position, the walk yields every later record and searches exactly the later pages |
| UsersWalker.FirstPage | src/Jira/Users/Walker.php:207-218 | the first `valid()` of a pass searches from 0 and lands on the first page |
| UsersWalker.WalkFirstPage | src/Jira/Users/Walker.php:207-255 | a non-empty walk yields the first record and then the rest, after a search from 0 |
| UsersWalker.FullPassYieldsAll | src/Jira/Users/Walker.php:201-255 | against a server of pages of P records, a full `foreach` yields every record in order and searches from 0, P, 2P, … |

## Left out

- HTTP transport and authentication: the client is a function from the sent request to a body or an exception; `sendRequest` and the authentication object are not part of this model.
- `json_decode` is a function parameter; floating-point JSON numbers are not modelled.
- Json.Record: a record may hold the same key twice, which no PHP array (and no `json_decode` result) does. On such a record the constructor loops visit both pairs in order, so a later `displayName` can overwrite an `email` that PHP, holding the key once in its first position, would keep. Records built by decoding have unique keys (`UniqueKeys`), and on those every lemma reads as PHP behaves.
- The groups result class is not part of this model: `GroupsApi.Api.Respond` returns the decoded payload it would receive, and whatever that constructor refuses is not captured.
- The users walker's client is `thawkins\Jira\Api` (`use thawkins\Jira\Api;` in src/Jira/Users/Walker.php:28), and its pages are `thawkins\Jira\Api\Result` objects read through `getTotal`, `getIssuesCount` and `getIssues`. Neither class is part of this model, so the search is a function parameter answering with a page (`UsersPage`) or a failure; `UsersWalker.ErrorOnEverySearch` covers a client whose every search raises a PHP `Error`.
- The walkers' search parameter answers with a page, an `UnauthorizedException`, another exception, or a PHP `Error` (`Fatal`). A `false` reply of `api()` reaching `setResult` and a `TypeError` inside `api()` are that `Error`; `ProjectsWalker.Observed` maps the projects API's outcomes onto these answers.
- `error_log` is reduced to the `logged` flag of the verdict.
- `is_numeric` in the walker constructors is modelled for integers only: the argument is `Option<int>`.
- `setDelegate`'s callable is a total function; a non-callable argument is `None`.
- `Run` and `Foreach` take a fuel bound on the number of `valid()` calls. A walk that has not ended within the fuel is `None`, so the full-pass lemmas require fuel above the number of records.
- UsersApi.Api.AutomapFields: the cache `$this->fields` is never assigned in the class, so the renaming map is a parameter; a cache entry whose `name` is not a string is not modelled.
- `fetch` with a string `$data` argument is not modelled; `data` is an array.
- The entity classes' property names for list-keyed records are the decimal spelling of the index.
- Strings are sequences of characters with ASCII case mapping; locale and Unicode case folding are not modelled.
- UsersApi.Api.New: a users API object can never be constructed, because its constructor always reaches the undefined `clearLocalCaches`; the model returns the object together with that failure.
- `getProject`'s `raw` flag and the other `api()` callers are modelled through `ProjectsApi.Api.Respond` with the flag as a parameter, not as separate methods.
