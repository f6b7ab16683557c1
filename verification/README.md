# compliance_report, modelled in Dafny

This project models the `compliance_report` Chef resource of the audit
cookbook (`libraries/report.rb`). The resource's `:execute` action does five things:

- It selects the `compliance_profile` resources of the run (`profiles`).
- It folds their scan results into two hashes keyed by profile name: one
  holds the parsed result and one the owner (`compound_report`).
- It wraps both hashes with the node's name, OS and environment (`node_info`).
- It resolves the owner the report is filed under (`return_or_guess_owner`).
- It uploads the payload, either with a bearer token to `/owners/{o}/inspec`
  or `/chef/organizations/{o}/inspec` (the choice depends on `variant`), or
  through the Chef server's API client to `/organizations/{o}/inspec`.

The model replaces the upload with the request that would be made, so the
action becomes a decision: `Result<Request, Error>`.

Files and modules:

- `wrappers.dfy` (`Wrappers`): `Option` for Ruby's nil, `Result` for a raised exception.
- `json.dfy` (`Json`): JSON values, for parsed result files and for the payload.
- `ruby_strings.dfy` (`RubyStrings`): Ruby's `String#split('/')` with
  `Array#last`, and `File.join`, as used by the resource.
- `report.dfy` (`ComplianceReport`): the resource itself. `CompoundReport` is
  the imperative loop of `compound_report`, proved equal to the
  specification function `Compound`. `Profiles`, `NodeInfo`, `Blob` and
  `ReturnOrGuessOwner` are functions. `Submission` is the branch on `token`
  and `variant`. `Execute` is the whole action.

Inputs that the Ruby code takes from its environment are parameters here:

- The run's resource collection is a `seq<Resource>`.
- The run's node is a `Node` record.
- The resource's properties are a `Config` record, with `None` for an unset property.
- `Chef::Config[:chef_server_url]` is a string.
- Reading and parsing the result files is a map from report path to parsed
  document. A path missing from the map is a file that `File.read` or
  `JSON.parse` raises on.

Points of the resource's behaviour that are easy to misread:

- Profiles with the same name are not rejected. The last one overwrites the
  earlier ones in both hashes.
- Without a token, the report goes to `/organizations/{o}/inspec` through the
  API client. The variant is not looked at, and `construct_url` gets no server.
- The guessed owner comes from the Chef server URL, not from the `server`
  property.
- The only owner failure is a nil owner. It happens when the Chef server URL
  has no segment at all, and `File.join` then raises. An unknown variant is
  checked before this on the token path.
- There is no identifier-parsing error. The owner and name of a profile come
  from `normalize_owner_profile`, which is not part of this model.

## Model

| member | source | states |
|---|---|---|
| ComplianceReport.Profiles | libraries/report.rb:63-67 | the selection is never longer than the resource collection |
| ComplianceReport.ProfilesMembership | libraries/report.rb:63-67 | a profile is selected if and only if it is a `ComplianceProfile` entry of the collection |
| ComplianceReport.ProfilesAppend | libraries/report.rb:63-67 | selection distributes over concatenation, so the collection's order is kept |
| ComplianceReport.ProfilesSingle | libraries/report.rb:64-66 | a single entry is kept when it is a compliance profile and dropped otherwise |
| ComplianceReport.Compound | libraries/report.rb:69-80 | the fold of `compound_report` as a function: on success both hashes have the same keys; a failure is always an unreadable report whose path is not among the readable files (CompoundSucceeds, CompoundKeys, CompoundLastWins and CompoundFirstFailure state the rest) |
| ComplianceReport.CompoundReport | libraries/report.rb:69-80 | the loop over the profiles that updates two maps in place returns exactly the fold `Compound`, including raising at the first unreadable file |
| ComplianceReport.CompoundErrorSticks | libraries/report.rb:73-75 | once one profile's file has raised, no later profile changes the outcome |
| ComplianceReport.CompoundSucceeds | libraries/report.rb:73-77 | the fold succeeds if and only if every profile's result file is readable, so duplicate names never raise |
| ComplianceReport.CompoundKeys | libraries/report.rb:69-79 | both hashes have the same keys, and these are exactly the profile names of the input; no profiles give two empty hashes |
| ComplianceReport.CompoundLastWins | libraries/report.rb:73-77 | under each name, the results hash holds the parsed file of the last profile with that name, and the owner hash holds that profile's owner |
| ComplianceReport.CompoundFirstFailure | libraries/report.rb:73-75 | a failed fold names the first profile in order whose file is unreadable, and every earlier file was readable |
| ComplianceReport.NodeInfo | libraries/report.rb:82-93 | `node_info` has exactly the keys node, os and environment; node is the run node's name; os has exactly release (the node's `platform_version`) and family (its `platform`), each JSON null when the attribute is unset; environment is the property when set, else the node's |
| ComplianceReport.Blob | libraries/report.rb:27-29 | the payload keeps every `node_info` entry and adds exactly `reports`, which holds the results hash, and `profiles`, which maps every profile name of the owner hash to its owner |
| ComplianceReport.BlobIgnoresOtherProperties | libraries/report.rb:17-18 | of all the resource's properties, only `environment` affects the payload, and the `node` property is never consulted |
| ComplianceReport.ReturnOrGuessOwner | libraries/report.rb:95-97 | an explicit owner is returned verbatim, even when it is empty; a guessed owner is a non-empty segment without '/'; the result is nil if and only if no owner is given and the server URL is only slashes |
| ComplianceReport.GuessOwnerLastSegment | libraries/report.rb:96 | the guess is the URL's last segment, followed by any run of trailing slashes or by none (`.../org/myorg` and `.../org/myorg//` give `myorg`); a URL with no '/' at all is its own guess |
| RubyStrings.Split | libraries/report.rb:96 | `split('/')` yields parts without '/', and never ends with an empty part |
| RubyStrings.SplitLast | libraries/report.rb:96 | `split('/').last`, when present, is a non-empty string without '/' |
| RubyStrings.FieldsJoin | libraries/report.rb:96 | joining the '/'-separated fields of a string with '/' gives the string back |
| RubyStrings.SplitLastNone | libraries/report.rb:96 | `split('/').last` is nil if and only if the string consists only of slashes |
| RubyStrings.SplitTrailingSlash | libraries/report.rb:96 | a trailing '/' changes neither the split nor its last element |
| RubyStrings.SplitTrailingSlashes | libraries/report.rb:96 | any run of trailing '/' leaves `split('/').last` unchanged |
| RubyStrings.SplitLastPlain | libraries/report.rb:96 | a non-empty string without '/' is its own `split('/').last` |
| RubyStrings.SplitLastSegment | libraries/report.rb:96 | after the last '/', a non-empty segment without '/' is what `split('/').last` returns |
| RubyStrings.FileJoin | libraries/report.rb:36 | `File.join` keeps a leading '/' of its first part, so every upload path is absolute (FileJoinEndsWithLast, JoinThree and JoinThreeEmptyMiddle give the rest) |
| RubyStrings.FileJoinEndsWithLast | libraries/report.rb:36 | the result of `File.join` ends with its last part, so every upload path ends with `inspec` |
| RubyStrings.JoinThree | libraries/report.rb:36 | `File.join(prefix, o, last)` is `prefix/o/last` when no part brings its own '/' to a join |
| RubyStrings.JoinThreeEmptyMiddle | libraries/report.rb:36 | `File.join(prefix, "", last)` is `prefix/last` |
| ComplianceReport.OwnerPath | libraries/report.rb:36-38 | `File.join(prefix, o, 'inspec')` raises (the owner-missing error) if and only if the owner is nil; for a plain owner segment and a prefix without a trailing '/', it is `prefix/o/inspec`; the same join with `/organizations` is at line 55 |
| ComplianceReport.PlainOwnerPath | libraries/report.rb:36-38 | with any of the three fixed prefixes `/owners`, `/chef/organizations` and `/organizations` (line 55), a plain owner gives `prefix/o/inspec` |
| ComplianceReport.Submission | libraries/report.rb:34-57 | a request is made if and only if the owner is known and, with a token set, the variant is "compliance" or "chef"; every request carries the blob as body and is a bearer request exactly when the token is set; every failure is the unknown-variant or the owner-missing error (SubmissionAuth, UnknownVariantIff, OwnerMissingIff, NoTokenIgnoresVariant and SubmissionPaths state the rest) |
| ComplianceReport.SubmissionAuth | libraries/report.rb:34-57 | only the token's presence picks the auth path; a set token (even "") yields a bearer request with header `Bearer {token}`, the blob as body and the server given to `construct_url`; no token yields an API-client post of the blob with no server |
| ComplianceReport.UnknownVariantIff | libraries/report.rb:34-41 | the unknown-variant error is raised if and only if a token is set and the variant is neither "compliance" nor "chef", and it names the variant |
| ComplianceReport.OwnerMissingIff | libraries/report.rb:35-55 | a nil owner raises if and only if no token is set or the variant is accepted, so an unknown variant is reported first |
| ComplianceReport.NoTokenIgnoresVariant | libraries/report.rb:51-57 | without a token, changing the variant or the server does not change the outcome |
| ComplianceReport.SubmissionPaths | libraries/report.rb:34-55 | for a plain owner: compliance gives `/owners/{o}/inspec`, chef gives `/chef/organizations/{o}/inspec`, and no token gives `/organizations/{o}/inspec` |
| ComplianceReport.EmptyOwnerPaths | libraries/report.rb:36-55 | with an explicit empty owner, the three paths lose their owner segment, e.g. `/owners/inspec` |
| ComplianceReport.Action | libraries/report.rb:23-58 | the action ends with an unreadable-report error if and only if the fold of the selected profiles fails, and any request it makes carries a body with exactly the keys node, os, environment, reports and profiles (ActionRequiresAllReports states the rest) |
| ComplianceReport.Execute | libraries/report.rb:23-58 | the action yields exactly `Action`: fold the selected profiles, build the blob, resolve the owner, choose the request |
| ComplianceReport.ActionRequiresAllReports | libraries/report.rb:25-29 | a request is made only if every declared profile's file was read; the request's `reports` and `profiles` then have exactly the selected profile names as keys |
| ComplianceReport.ScenarioSingleProfileNoToken | libraries/report.rb:51-57 | one profile admin/ssh-baseline, no token, variant chef: an API-client post to `/organizations/admin/inspec` with that profile's result and owner |
| ComplianceReport.ScenarioUnreadableReport | libraries/report.rb:75 | an unreadable result file ends the action with that error, and no request is made |
| ComplianceReport.ScenarioBogusVariant | libraries/report.rb:39-40 | with a token, variant "bogus" ends the action with the unknown-variant error, and no request is made |

## Left out

- HTTP transport (`Net::HTTP.start`, `http.request`, `Chef::ServerAPI.new` and `#post`): network I/O. The model returns the request that would be made, and stops there.
- Response handling: the action does not inspect the HTTP status. On the bearer path the response of `http.request(req)` is dropped, so a rejected upload goes unnoticed. On the API-client path, `Chef::ServerAPI#post` raises inside the library on an error status. Neither outcome is modelled.
- TLS settings (`use_ssl`, `verify_mode = VERIFY_NONE`) and the writes to `Chef::Config[:verify_api_cert]` and `[:ssl_verify_mode]`: side effects on foreign library state.
- `construct_url` from `ComplianceHelpers` is not part of this model. `Endpoint` records the path and server arguments it receives, not the URL it returns.
- `normalize_owner_profile` of `ComplianceProfile` is not part of this model. Its (owner, name) result is carried as fields of `Profile`.
- `File.read` and `JSON.parse` are given as a map from path to parsed document. Their two failures (unreadable file, malformed JSON) are merged into one error, `ReportUnreadable`.
- `to_json` serialisation: request bodies are JSON values, not text. JSON numbers are integers, since the report passes documents through without looking at them.
- Key order: Ruby hashes keep insertion order, and `to_json` writes keys in that order. A repeated profile name keeps the position of its first occurrence. Dafny maps are unordered, so the model does not capture the order of keys in the payload.
- The Chef resource DSL (`property`, `default_action`, `converge_by`, `use_automatic_resource_name`): framework plumbing. `Config` is a plain record. The `port` and `name` properties are carried, but the action never reads them.
- `Chef::Config[:chef_server_url]` is taken to be a string. If it were nil, `split` would raise NoMethodError; the model does not cover that.
- The test recipe and the attribute defaults drive the resource. They are not part of it.
