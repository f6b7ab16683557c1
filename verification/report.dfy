/** The `compliance_report` resource: it collects the results of the run's
    compliance profiles into one report, wraps them with facts about the node,
    resolves the owner the report is filed under, and decides which request
    uploads it (bearer token to a compliance endpoint, or the Chef server's
    own API client). */
module ComplianceReport {
  import opened Wrappers
  import opened Json
  import opened RubyStrings

  // ---------------------------------------------------------------------------
  // Data

  /** A `compliance_profile` resource, as the report sees it: the owner and
      profile name its `normalize_owner_profile` gives, and the path of the
      JSON file its scan wrote. */
  datatype Profile = Profile(owner: string, name: string, reportPath: string)

  /** An entry of the run's resource collection. */
  datatype Resource =
    | ComplianceProfile(profile: Profile)
    | OtherResource(resourceName: string)

  /** The two hashes `compound_report` returns, both keyed by profile name:
      the parsed result of each profile and its owner. */
  datatype Report = Report(results: map<string, Json>, owners: map<string, string>)

  /** The node of the Chef run. Its `platform` and `platform_version`
      attributes may be unset (nil). */
  datatype Node = Node(
    name: string,
    platform: Option<string>,
    platformVersion: Option<string>,
    environment: string)

  /** The resource's properties; None stands for an unset property. `variant`
      defaults to "chef" when the recipe does not set it. */
  datatype Config = Config(
    name: string,
    server: Option<string>,
    port: Option<int>,
    token: Option<string>,
    variant: string,
    node: Option<string>,
    environment: Option<string>,
    owner: Option<string>)

  /** What stops the action before a request is made. */
  datatype Error =
    /** `File.read` or `JSON.parse` raised on a profile's result file. */
    | ReportUnreadable(path: string)
    /** `raise "Provided unknown variant: #{variant}"`. */
    | UnknownVariant(variant: string)
    /** The owner resolved to nil, so `File.join` raised a TypeError. */
    | OwnerMissing

  /** The two arguments `construct_url` receives; the URL it builds from them
      is not part of this model. */
  datatype Endpoint = Endpoint(path: string, server: ServerArgument)

  /** Whether `construct_url` was given the `server` property, and its value. */
  datatype ServerArgument = ServerOmitted | ServerGiven(uri: Option<string>)

  /** The request the action makes. */
  datatype Request =
    /** `Net::HTTP::Post` with an `Authorization` header, body `blob.to_json`. */
    | BearerPost(url: Endpoint, authorization: string, body: map<string, Json>)
    /** `Chef::ServerAPI#post` of the blob. */
    | ServerApiPost(url: Endpoint, body: map<string, Json>)

  // ---------------------------------------------------------------------------
  // `profiles`: the compliance profiles of the resource collection

  function Profiles(collection: seq<Resource>): (ps: seq<Profile>)
    ensures |ps| <= |collection|
  {
    if collection == [] then []
    else
      (match collection[0]
       case ComplianceProfile(p) => [p]
       case OtherResource(_) => [])
      + Profiles(collection[1..])
  }

  /** A profile is selected exactly when it is declared in the collection. */
  lemma {:induction false} ProfilesMembership(collection: seq<Resource>, p: Profile)
    ensures p in Profiles(collection) <==> ComplianceProfile(p) in collection
  {
    if collection != [] {
      ProfilesMembership(collection[1..], p);
      assert collection == [collection[0]] + collection[1..];
    }
  }

  /** Selection keeps the order of the collection: it distributes over
      concatenation. */
  lemma {:induction false} ProfilesAppend(a: seq<Resource>, b: seq<Resource>)
    ensures Profiles(a + b) == Profiles(a) + Profiles(b)
  {
    if a == [] {
      assert a + b == b;
    } else {
      assert (a + b)[0] == a[0];
      assert (a + b)[1..] == a[1..] + b;
      ProfilesAppend(a[1..], b);
    }
  }

  /** Other resources are dropped and profiles kept, one by one. */
  lemma ProfilesSingle(r: Resource)
    ensures Profiles([r]) == if r.ComplianceProfile? then [r.profile] else []
  {
  }

  // ---------------------------------------------------------------------------
  // `compound_report`: folding the profiles into two hashes

  /** The report `compound_report` builds from `ps`, given the parsed result
      of every result file that can be read and parsed (`files`): each profile
      in turn stores its result and its owner under its name, and the first
      profile whose file is missing raises. */
  function Compound(ps: seq<Profile>, files: map<string, Json>): (r: Result<Report, Error>)
    ensures r.Ok? ==> r.value.results.Keys == r.value.owners.Keys
    ensures r.Err? ==> r.error.ReportUnreadable? && r.error.path !in files
  {
    if ps == [] then Ok(Report(map[], map[]))
    else
      var prof := ps[|ps| - 1];
      match Compound(ps[..|ps| - 1], files)
      case Err(e) => Err(e)
      case Ok(rep) =>
        if prof.reportPath in files then
          Ok(Report(rep.results[prof.name := files[prof.reportPath]],
                    rep.owners[prof.name := prof.owner]))
        else Err(ReportUnreadable(prof.reportPath))
  }

  /** `compound_report`: one pass over the profiles updating two maps. */
  method CompoundReport(ps: seq<Profile>, files: map<string, Json>) returns (r: Result<Report, Error>)
    ensures r == Compound(ps, files)
  {
    var report: map<string, Json> := map[];
    var ownermap: map<string, string> := map[];
    var i := 0;
    while i < |ps|
      invariant 0 <= i <= |ps|
      invariant Compound(ps[..i], files) == Ok(Report(report, ownermap))
    {
      var prof := ps[i];
      assert ps[..i + 1][..i] == ps[..i];
      if prof.reportPath !in files {
        CompoundErrorSticks(ps, i + 1, files);
        return Err(ReportUnreadable(prof.reportPath));
      }
      report := report[prof.name := files[prof.reportPath]];
      ownermap := ownermap[prof.name := prof.owner];
      i := i + 1;
    }
    assert ps[..i] == ps;
    return Ok(Report(report, ownermap));
  }

  /** Once a prefix of the profiles has raised, the whole fold raises the same. */
  lemma {:induction false} CompoundErrorSticks(ps: seq<Profile>, k: nat, files: map<string, Json>)
    requires k <= |ps|
    requires Compound(ps[..k], files).Err?
    ensures Compound(ps, files) == Compound(ps[..k], files)
    decreases |ps| - k
  {
    if k < |ps| {
      assert ps[..k + 1][..k] == ps[..k];
      CompoundErrorSticks(ps, k + 1, files);
    } else {
      assert ps[..k] == ps;
    }
  }

  /** The set of profile names among `ps`. */
  function Names(ps: seq<Profile>): set<string>
  {
    set i | 0 <= i < |ps| :: ps[i].name
  }

  /** The fold succeeds exactly when every profile's result file is readable:
      duplicate names never raise. */
  lemma {:induction false} CompoundSucceeds(ps: seq<Profile>, files: map<string, Json>)
    ensures Compound(ps, files).Ok? <==> forall i :: 0 <= i < |ps| ==> ps[i].reportPath in files
  {
    if ps != [] {
      var init := ps[..|ps| - 1];
      CompoundSucceeds(init, files);
      assert forall i :: 0 <= i < |init| ==> init[i] == ps[i];
    }
  }

  /** Both hashes have exactly the profile names as keys (none for no profiles). */
  lemma {:induction false} CompoundKeys(ps: seq<Profile>, files: map<string, Json>)
    requires Compound(ps, files).Ok?
    ensures Compound(ps, files).value.results.Keys == Names(ps)
    ensures Compound(ps, files).value.owners.Keys == Names(ps)
  {
    if ps != [] {
      var init := ps[..|ps| - 1];
      CompoundKeys(init, files);
      assert ps == init + [ps[|ps| - 1]];
      assert Names(ps) == Names(init) + {ps[|ps| - 1].name} by {
        forall x | x in Names(ps) ensures x in Names(init) + {ps[|ps| - 1].name} {
          var i :| 0 <= i < |ps| && ps[i].name == x;
          if i < |init| { assert init[i] == ps[i]; }
        }
        forall x | x in Names(init) ensures x in Names(ps) {
          var i :| 0 <= i < |init| && init[i].name == x;
          assert ps[i] == init[i];
        }
      }
    }
  }

  /** Under each name, both hashes hold what the LAST profile of that name
      brought: its parsed result and its owner. */
  lemma {:induction false} CompoundLastWins(ps: seq<Profile>, files: map<string, Json>, i: nat)
    requires Compound(ps, files).Ok?
    requires i < |ps|
    requires forall j :: i < j < |ps| ==> ps[j].name != ps[i].name
    ensures ps[i].reportPath in files
    ensures ps[i].name in Compound(ps, files).value.results
    ensures Compound(ps, files).value.results[ps[i].name] == files[ps[i].reportPath]
    ensures ps[i].name in Compound(ps, files).value.owners
    ensures Compound(ps, files).value.owners[ps[i].name] == ps[i].owner
  {
    var init := ps[..|ps| - 1];
    if i < |ps| - 1 {
      assert init[i] == ps[i];
      assert forall j :: i < j < |init| ==> init[j] == ps[j];
      CompoundLastWins(init, files, i);
    }
  }

  /** When the fold raises, it raises for the first profile whose result file
      cannot be read. */
  lemma {:induction false} CompoundFirstFailure(ps: seq<Profile>, files: map<string, Json>)
    requires Compound(ps, files).Err?
    ensures exists k :: (0 <= k < |ps|
      && ps[k].reportPath !in files
      && (forall j :: 0 <= j < k ==> ps[j].reportPath in files)
      && Compound(ps, files) == Err(ReportUnreadable(ps[k].reportPath)))
  {
    var init := ps[..|ps| - 1];
    if Compound(init, files).Err? {
      CompoundFirstFailure(init, files);
      var k :| 0 <= k < |init|
        && init[k].reportPath !in files
        && (forall j :: 0 <= j < k ==> init[j].reportPath in files)
        && Compound(init, files) == Err(ReportUnreadable(init[k].reportPath));
      assert ps[k] == init[k];
      assert forall j :: 0 <= j < k ==> ps[j] == init[j];
    } else {
      CompoundSucceeds(init, files);
      assert forall j :: 0 <= j < |init| ==> ps[j] == init[j];
    }
  }

  // ---------------------------------------------------------------------------
  // `node_info` and the blob

  /** A node attribute as it appears in JSON: nil becomes null. */
  function Attribute(v: Option<string>): Json
  {
    if v.Some? then JString(v.value) else JNull
  }

  /** `node_info`: exactly node, os {release, family} and environment. The
      node is always the run's node (the `node` property is never consulted);
      the environment is the property when set, else the node's. */
  function NodeInfo(cfg: Config, n: Node): (info: map<string, Json>)
    ensures info.Keys == {"node", "os", "environment"}
    ensures info["node"] == JString(n.name)
    ensures info["os"].JObject? && info["os"].fields.Keys == {"release", "family"}
    ensures info["os"].fields["release"] == Attribute(n.platformVersion)
    ensures info["os"].fields["family"] == Attribute(n.platform)
    ensures cfg.environment.Some? ==> info["environment"] == JString(cfg.environment.value)
    ensures cfg.environment.None? ==> info["environment"] == JString(n.environment)
  {
    map[
      "node" := JString(n.name),
      "os" := JObject(map["release" := Attribute(n.platformVersion), "family" := Attribute(n.platform)]),
      "environment" := JString(if cfg.environment.Some? then cfg.environment.value else n.environment)
    ]
  }

  /** The payload: `node_info` plus exactly two keys, `reports`, the parsed
      result of every profile, and `profiles`, the owner of every profile as
      a JSON string. */
  function Blob(cfg: Config, n: Node, rep: Report): (blob: map<string, Json>)
    ensures blob.Keys == NodeInfo(cfg, n).Keys + {"reports", "profiles"}
    ensures forall k :: k in NodeInfo(cfg, n) ==> blob[k] == NodeInfo(cfg, n)[k]
    ensures blob["reports"] == JObject(rep.results)
    ensures blob["profiles"].JObject? && blob["profiles"].fields.Keys == rep.owners.Keys
    ensures forall p :: p in rep.owners ==> blob["profiles"].fields[p] == JString(rep.owners[p])
  {
    NodeInfo(cfg, n)["reports" := JObject(rep.results)]["profiles" := JObject(map p | p in rep.owners :: JString(rep.owners[p]))]
  }

  /** The payload depends on the configuration only through `environment`. */
  lemma BlobIgnoresOtherProperties(cfg: Config, other: Config, n: Node, rep: Report)
    requires cfg.environment == other.environment
    ensures Blob(cfg, n, rep) == Blob(other, n, rep)
  {
  }

  // ---------------------------------------------------------------------------
  // `return_or_guess_owner`

  /** The explicit owner when set (even ""), else the last '/'-segment of the
      Chef server URL; nil when that URL has no segment at all. */
  function ReturnOrGuessOwner(owner: Option<string>, chefServerUrl: string): (o: Option<string>)
    ensures owner.Some? ==> o == owner
    ensures owner.None? && o.Some? ==> o.value != "" && '/' !in o.value
    ensures o.None? <==> owner.None? && AllSlashes(chefServerUrl)
  {
    SplitLastNone(chefServerUrl);
    if owner.Some? then owner else SplitLast(chefServerUrl)
  }

  /** The guessed owner is the URL's last segment, with or without a trailing
      separator: "https://host/org/myorg" and "https://host/org/myorg/" both
      give "myorg". */
  lemma GuessOwnerLastSegment(base: string, seg: string, slashes: string)
    requires seg != "" && '/' !in seg
    requires AllSlashes(slashes)
    ensures ReturnOrGuessOwner(None, seg) == Some(seg)
    ensures ReturnOrGuessOwner(None, base + "/" + seg) == Some(seg)
    ensures ReturnOrGuessOwner(None, base + "/" + seg + slashes) == Some(seg)
  {
    SplitLastPlain(seg);
    SplitLastSegment(base, seg);
    SplitTrailingSlashes(base + "/" + seg, slashes);
  }

  // ---------------------------------------------------------------------------
  // The `:execute` action: which request is made

  /** `File.join(prefix, o, 'inspec')`, which raises on a nil owner; for a
      plain owner segment it is `prefix/o/inspec`. */
  function OwnerPath(prefix: string, o: Option<string>): (r: Result<string, Error>)
    ensures r.Err? <==> o.None?
    ensures r.Err? ==> r.error == OwnerMissing
    ensures o.Some? && o.value != "" && o.value[0] != '/' && o.value[|o.value| - 1] != '/'
            && prefix != "" && prefix[|prefix| - 1] != '/'
            ==> r == Ok(prefix + "/" + o.value + "/inspec")
  {
    if o.None? then Err(OwnerMissing)
    else
      assert o.value != "" && o.value[0] != '/' && o.value[|o.value| - 1] != '/'
             && prefix != "" && prefix[|prefix| - 1] != '/'
             ==> FileJoin([prefix, o.value, "inspec"]) == prefix + "/" + o.value + "/inspec" by {
        if o.value != "" && o.value[0] != '/' && o.value[|o.value| - 1] != '/'
           && prefix != "" && prefix[|prefix| - 1] != '/' {
          JoinThree(prefix, o.value, "inspec");
        }
      }
      Ok(FileJoin([prefix, o.value, "inspec"]))
  }

  /** The branch of the action on `token` and then on `variant`. A request is
      made exactly when the owner is known and, with a token, the variant is
      one of the two known ones; it always carries the blob, and it is a
      bearer request exactly when the token is set. */
  function Submission(cfg: Config, blob: map<string, Json>, o: Option<string>): (r: Result<Request, Error>)
    ensures r.Ok? <==> o.Some? && (cfg.token.None? || cfg.variant == "compliance" || cfg.variant == "chef")
    ensures r.Ok? ==> r.value.body == blob && (r.value.BearerPost? <==> cfg.token.Some?)
    ensures r.Err? ==> r.error.UnknownVariant? || r.error == OwnerMissing
  {
    if cfg.token.Some? then
      var path :=
        if cfg.variant == "compliance" then OwnerPath("/owners", o)
        else if cfg.variant == "chef" then OwnerPath("/chef/organizations", o)
        else Err(UnknownVariant(cfg.variant));
      match path
      case Err(e) => Err(e)
      case Ok(p) => Ok(BearerPost(Endpoint(p, ServerGiven(cfg.server)), "Bearer " + cfg.token.value, blob))
    else
      match OwnerPath("/organizations", o)
      case Err(e) => Err(e)
      case Ok(p) => Ok(ServerApiPost(Endpoint(p, ServerOmitted), blob))
  }

  /** Whether the token is set, and nothing else, picks the authentication:
      a set token (even "") goes out as `Authorization: Bearer <token>` with
      the blob as body and the `server` property given to `construct_url`;
      an unset token posts the blob through the API client with no server. */
  lemma SubmissionAuth(cfg: Config, blob: map<string, Json>, o: Option<string>)
    requires Submission(cfg, blob, o).Ok?
    ensures Submission(cfg, blob, o).value.BearerPost? <==> cfg.token.Some?
    ensures cfg.token.Some? ==> Submission(cfg, blob, o).value.authorization == "Bearer " + cfg.token.value
    ensures cfg.token.Some? ==> Submission(cfg, blob, o).value.url.server == ServerGiven(cfg.server)
    ensures cfg.token.None? ==> Submission(cfg, blob, o).value.url.server == ServerOmitted
    ensures Submission(cfg, blob, o).value.body == blob
  {
  }

  /** The unknown-variant error is raised exactly when a token is set and the
      variant is neither "compliance" nor "chef", and it names that variant. */
  lemma UnknownVariantIff(cfg: Config, blob: map<string, Json>, o: Option<string>)
    ensures (Submission(cfg, blob, o).Err? && Submission(cfg, blob, o).error.UnknownVariant?)
        <==> cfg.token.Some? && cfg.variant != "compliance" && cfg.variant != "chef"
    ensures Submission(cfg, blob, o).Err? && Submission(cfg, blob, o).error.UnknownVariant?
        ==> Submission(cfg, blob, o).error.variant == cfg.variant
  {
  }

  /** A nil owner raises only once the variant has been accepted (or when no
      token is set): an unknown variant is reported first. */
  lemma OwnerMissingIff(cfg: Config, blob: map<string, Json>, o: Option<string>)
    ensures Submission(cfg, blob, o) == Err(OwnerMissing)
        <==> o.None? && (cfg.token.None? || cfg.variant == "compliance" || cfg.variant == "chef")
  {
  }

  /** Without a token neither the variant nor the server is looked at. */
  lemma NoTokenIgnoresVariant(cfg: Config, variant: string, server: Option<string>, blob: map<string, Json>, o: Option<string>)
    requires cfg.token.None?
    ensures Submission(cfg, blob, o) == Submission(cfg.(variant := variant, server := server), blob, o)
  {
  }

  /** The three path templates, for an owner that is a plain segment. */
  lemma SubmissionPaths(cfg: Config, blob: map<string, Json>, owner: string)
    requires owner != "" && owner[0] != '/' && owner[|owner| - 1] != '/'
    ensures cfg.token.Some? && cfg.variant == "compliance" ==>
      Submission(cfg, blob, Some(owner)).Ok? && Submission(cfg, blob, Some(owner)).value.url.path == "/owners/" + owner + "/inspec"
    ensures cfg.token.Some? && cfg.variant == "chef" ==>
      Submission(cfg, blob, Some(owner)).Ok? && Submission(cfg, blob, Some(owner)).value.url.path == "/chef/organizations/" + owner + "/inspec"
    ensures cfg.token.None? ==>
      Submission(cfg, blob, Some(owner)).Ok? && Submission(cfg, blob, Some(owner)).value.url.path == "/organizations/" + owner + "/inspec"
  {
    if cfg.token.None? {
      PlainOwnerPath("/organizations", owner);
    } else if cfg.variant == "compliance" {
      PlainOwnerPath("/owners", owner);
    } else if cfg.variant == "chef" {
      PlainOwnerPath("/chef/organizations", owner);
    }
  }

  /** `File.join(prefix, o, "inspec")` for one of the fixed path prefixes. */
  lemma PlainOwnerPath(prefix: string, owner: string)
    requires prefix in {"/organizations", "/owners", "/chef/organizations"}
    requires owner != "" && owner[0] != '/' && owner[|owner| - 1] != '/'
    ensures OwnerPath(prefix, Some(owner)) == Ok(prefix + "/" + owner + "/inspec")
  {
    assert prefix != "" && prefix[|prefix| - 1] == 's';
  }

  /** An explicit empty owner is used as is, and `File.join` then drops it
      from the path. */
  lemma EmptyOwnerPaths(cfg: Config, blob: map<string, Json>)
    ensures cfg.token.Some? && cfg.variant == "compliance" ==>
      Submission(cfg, blob, Some("")).Ok? && Submission(cfg, blob, Some("")).value.url.path == "/owners/inspec"
    ensures cfg.token.Some? && cfg.variant == "chef" ==>
      Submission(cfg, blob, Some("")).Ok? && Submission(cfg, blob, Some("")).value.url.path == "/chef/organizations/inspec"
    ensures cfg.token.None? ==>
      Submission(cfg, blob, Some("")).Ok? && Submission(cfg, blob, Some("")).value.url.path == "/organizations/inspec"
  {
    if cfg.token.None? {
      JoinThreeEmptyMiddle("/organizations", "inspec");
    } else if cfg.variant == "compliance" {
      JoinThreeEmptyMiddle("/owners", "inspec");
    } else if cfg.variant == "chef" {
      JoinThreeEmptyMiddle("/chef/organizations", "inspec");
    }
  }

  /** The whole action: fold the selected profiles, build the blob, resolve
      the owner, pick the request. */
  function Action(cfg: Config, n: Node, collection: seq<Resource>, files: map<string, Json>, chefServerUrl: string)
    : (r: Result<Request, Error>)
    ensures (r.Err? && r.error.ReportUnreadable?) <==> Compound(Profiles(collection), files).Err?
    ensures r.Ok? ==> r.value.body.Keys == {"node", "os", "environment", "reports", "profiles"}
  {
    match Compound(Profiles(collection), files)
    case Err(e) => Err(e)
    case Ok(rep) => Submission(cfg, Blob(cfg, n, rep), ReturnOrGuessOwner(cfg.owner, chefServerUrl))
  }

  /** `action :execute`, with the HTTP call replaced by the request it makes. */
  method Execute(cfg: Config, n: Node, collection: seq<Resource>, files: map<string, Json>, chefServerUrl: string)
    returns (r: Result<Request, Error>)
    ensures r == Action(cfg, n, collection, files, chefServerUrl)
  {
    var compound := CompoundReport(Profiles(collection), files);
    if compound.Err? {
      return Err(compound.error);
    }
    var blob := Blob(cfg, n, compound.value);
    var o := ReturnOrGuessOwner(cfg.owner, chefServerUrl);
    r := Submission(cfg, blob, o);
  }

  /** A request is made only when every selected profile's result file was
      read, and then it carries every profile under its name. */
  lemma ActionRequiresAllReports(cfg: Config, n: Node, collection: seq<Resource>, files: map<string, Json>, chefServerUrl: string)
    requires Action(cfg, n, collection, files, chefServerUrl).Ok?
    ensures forall p :: ComplianceProfile(p) in collection ==> p.reportPath in files
    ensures Action(cfg, n, collection, files, chefServerUrl).value.body["reports"].fields.Keys
         == Names(Profiles(collection))
    ensures Action(cfg, n, collection, files, chefServerUrl).value.body["profiles"].fields.Keys
         == Names(Profiles(collection))
  {
    var ps := Profiles(collection);
    CompoundSucceeds(ps, files);
    CompoundKeys(ps, files);
    forall p | ComplianceProfile(p) in collection ensures p.reportPath in files {
      ProfilesMembership(collection, p);
    }
    var rep := Compound(ps, files).value;
    SubmissionAuth(cfg, Blob(cfg, n, rep), ReturnOrGuessOwner(cfg.owner, chefServerUrl));
  }

  /** One profile `admin/ssh-baseline` whose file holds `{"controls":[]}`, no
      token, variant "chef": the blob is posted through the API client to
      `/organizations/admin/inspec`, with the profile's result and owner. */
  lemma ScenarioSingleProfileNoToken(n: Node, server: string)
    ensures
      var cfg := Config("chef-server", Some(server), None, None, "chef", None, None, Some("admin"));
      var prof := Profile("admin", "ssh-baseline", "ok.json");
      var doc := JObject(map["controls" := JArray([])]);
      var r := Action(cfg, n, [OtherResource("audit"), ComplianceProfile(prof)], map["ok.json" := doc], "https://chef.example.com/organizations/acme");
      && r.Ok?
      && r.value == ServerApiPost(Endpoint("/organizations/admin/inspec", ServerOmitted), r.value.body)
      && r.value.body["reports"] == JObject(map["ssh-baseline" := doc])
      && r.value.body["profiles"] == JObject(map["ssh-baseline" := JString("admin")])
  {
    var cfg := Config("chef-server", Some(server), None, None, "chef", None, None, Some("admin"));
    var doc := JObject(map["controls" := JArray([])]);
    var rep := Report(map["ssh-baseline" := doc], map["ssh-baseline" := "admin"]);
    ScenarioReport();
    ScenarioOwnerPath();
    var blob := Blob(cfg, n, rep);
    assert blob["profiles"].fields == map["ssh-baseline" := JString("admin")];
  }

  /** The report of the scenario above. */
  lemma ScenarioReport()
    ensures
      var prof := Profile("admin", "ssh-baseline", "ok.json");
      var doc := JObject(map["controls" := JArray([])]);
      Compound(Profiles([OtherResource("audit"), ComplianceProfile(prof)]), map["ok.json" := doc])
        == Ok(Report(map["ssh-baseline" := doc], map["ssh-baseline" := "admin"]))
  {
    var prof := Profile("admin", "ssh-baseline", "ok.json");
    assert Profiles([OtherResource("audit"), ComplianceProfile(prof)]) == [prof];
    assert [prof][..0] == [];
  }

  /** The path of the scenario above. */
  lemma ScenarioOwnerPath()
    ensures OwnerPath("/organizations", Some("admin")) == Ok("/organizations/admin/inspec")
  {
    assert "admin"[0] == 'a' && "admin"[4] == 'n' && "/organizations"[13] == 's';
    assert "/organizations" + "/" + "admin" + "/inspec" == "/organizations/admin/inspec";
  }

  /** An unreadable result file stops the action before any request. */
  lemma ScenarioUnreadableReport(cfg: Config, n: Node, prof: Profile, files: map<string, Json>, chefServerUrl: string)
    requires prof.reportPath !in files
    ensures Action(cfg, n, [ComplianceProfile(prof)], files, chefServerUrl) == Err(ReportUnreadable(prof.reportPath))
  {
    assert Profiles([ComplianceProfile(prof)]) == [prof];
    assert [prof][..0] == [];
    assert Compound([prof], files) == Err(ReportUnreadable(prof.reportPath));
  }

  /** With a token set, the variant "bogus" raises before any request. */
  lemma ScenarioBogusVariant(cfg: Config, n: Node, collection: seq<Resource>, files: map<string, Json>, chefServerUrl: string)
    requires cfg.token.Some? && cfg.variant == "bogus"
    requires Compound(Profiles(collection), files).Ok?
    ensures Action(cfg, n, collection, files, chefServerUrl) == Err(UnknownVariant("bogus"))
  {
  }
}
