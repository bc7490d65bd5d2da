/**
 * Configuration defaulting shared by the Unisphere exporter, the Spectrum
 * exporter and the library's Spectrum configuration: every empty setting
 * of a client, of a server section and of an enabled provider section is
 * filled from the global block; credentials are looked up by name and
 * rendered in base64; the exporter getters read a server section.
 *
 * The server and provider sections are explicit records here; in the
 * configuration types they are walked by reflection, which panics on a
 * nil section or a nil providers block.
 */
module ConfigDefaults {
  import opened Wrappers
  import opened GoStrconv
  import Base64

  datatype GlobalServer = GlobalServer(endpoint: string, apiPath: string, insecure: bool, mode: string)
  datatype GlobalClient = GlobalClient(auth: string, insecure: bool, labels: map<string, string>)
  datatype Global = Global(server: GlobalServer, client: GlobalClient, providerInterval: string)

  /** A target; `labels` is `None` for a nil label map. */
  datatype Client = Client(endpoint: string, auth: string, insecure: string, labels: Option<map<string, string>>)

  datatype ServerSection = ServerSection(endpoint: string, apiPath: string, mode: string, insecure: string, enabled: bool)

  /** The server block in field order; `None` is a nil section. */
  datatype Servers = Servers(metrics: Option<ServerSection>, logs: Option<ServerSection>, traces: Option<ServerSection>)

  /** A provider section: its enabled flag and interval, and the level the event section also has. */
  datatype ProviderSection = ProviderSection(enabled: bool, interval: string, level: int)

  /** A named credential; user and password are byte strings, as Go strings are. */
  datatype Auth = Auth(name: string, user: Bytes, password: Bytes)

  /** A setting keeps its value unless it is empty. */
  function Default(value: string, global: string): (r: string)
    ensures value == "" ==> r == global
    ensures value != "" ==> r == value
  {
    if value == "" then global else value
  }

  // ------------------------------------------------------------------- labels

  /**
   * The labels after the global ones are applied: a global key is written
   * wherever the client's value is empty or missing, and every other client
   * label is kept.
   */
  function FillLabels(labels: map<string, string>, global: map<string, string>): (r: map<string, string>)
    ensures r.Keys == labels.Keys + global.Keys
    ensures forall k | k in global :: r[k] == (if k in labels && labels[k] != "" then labels[k] else global[k])
    ensures forall k | k in labels && k !in global :: r[k] == labels[k]
  {
    map k | k in labels.Keys + global.Keys ::
      if k in global && (k !in labels || labels[k] == "") then global[k] else labels[k]
  }

  /** The global labels whose keys are in `keys`. */
  function Restrict(global: map<string, string>, keys: set<string>): (r: map<string, string>)
    ensures r.Keys == global.Keys * keys
    ensures forall k | k in r :: r[k] == global[k]
  {
    map k | k in global.Keys * keys :: global[k]
  }

  lemma RestrictStep(global: map<string, string>, done: set<string>, k: string)
    requires k in global && k !in done
    ensures Restrict(global, done + {k}) == Restrict(global, done)[k := global[k]]
  {
    var g1 := Restrict(global, done + {k});
    var g2 := Restrict(global, done)[k := global[k]];
    assert g1.Keys == g2.Keys;
  }

  lemma FillLabelsStep(labels: map<string, string>, global: map<string, string>, done: set<string>, k: string)
    requires k in global && k !in done
    ensures var r := FillLabels(labels, Restrict(global, done));
      FillLabels(labels, Restrict(global, done + {k})) ==
        (if k !in r || r[k] == "" then r[k := global[k]] else r)
  {
    var g0 := Restrict(global, done);
    RestrictStep(global, done, k);
    var r := FillLabels(labels, g0);
    var next := FillLabels(labels, g0[k := global[k]]);
    var step := if k !in r || r[k] == "" then r[k := global[k]] else r;
    assert next.Keys == step.Keys;
    forall x | x in next ensures next[x] == step[x] {
      if x != k {
        assert x in g0 <==> x in g0[k := global[k]];
      }
    }
  }

  /**
   * The label loop over the global map (in Go's unspecified order): a key
   * is written when the client's value reads as empty.
   */
  method ApplyLabels(labels: map<string, string>, global: map<string, string>) returns (r: map<string, string>)
    ensures r == FillLabels(labels, global)
  {
    r := labels;
    var remaining := global.Keys;
    ghost var done: set<string> := {};
    FillLabelsNone(labels, global);
    while remaining != {}
      invariant done + remaining == global.Keys && done !! remaining
      invariant r == FillLabels(labels, Restrict(global, done))
      decreases remaining
    {
      var k :| k in remaining;
      FillLabelsStep(labels, global, done, k);
      if k !in r || r[k] == "" {
        r := r[k := global[k]];
      }
      remaining := remaining - {k};
      done := done + {k};
    }
    assert done == global.Keys;
    RestrictAll(global);
  }

  lemma FillLabelsNone(labels: map<string, string>, global: map<string, string>)
    ensures FillLabels(labels, Restrict(global, {})) == labels
  {
    assert Restrict(global, {}) == map[];
  }

  lemma RestrictAll(global: map<string, string>)
    ensures Restrict(global, global.Keys) == global
  {
  }

  /** Applying the global labels twice changes nothing more. */
  lemma FillLabelsIdempotent(labels: map<string, string>, global: map<string, string>)
    ensures FillLabels(FillLabels(labels, global), global) == FillLabels(labels, global)
  {
    var once := FillLabels(labels, global);
    var twice := FillLabels(once, global);
    assert twice.Keys == once.Keys;
    forall k | k in twice ensures twice[k] == once[k] {
    }
  }

  // ------------------------------------------------------------------ clients

  /**
   * The client loop as written: writing into a nil label map panics, which
   * happens as soon as the global block has a label (`None` is the panic).
   */
  function FillClientAsWritten(c: Client, g: GlobalClient): (r: Option<Client>)
    ensures r.None? <==> c.labels.None? && g.labels != map[]
    ensures r.Some? ==> r.value == FillClient(c, g)
  {
    if c.labels.None? && g.labels != map[] then None
    else Some(Client(c.endpoint, Default(c.auth, g.auth), Default(c.insecure, FormatBool(g.insecure)),
                     if c.labels.None? then None else Some(FillLabels(c.labels.value, g.labels))))
  }

  /** A target without labels, with one global label: the label write panics. */
  lemma NilLabelsPanic()
    ensures FillClientAsWritten(Client("https://10.0.0.1", "", "", None), GlobalClient("", false, map["site" := "dc1"])).None?
  {
    assert map["site" := "dc1"] != map[] by {
      assert "site" in map["site" := "dc1"];
    }
  }

  /**
   * One defaulted client, treating a nil label map as empty: auth and
   * insecure are filled when empty (the latter with a flag that parses),
   * and the labels as `FillLabels` says.
   */
  function FillClient(c: Client, g: GlobalClient): (r: Client)
    ensures r.endpoint == c.endpoint
    ensures r.auth == Default(c.auth, g.auth)
    ensures r.insecure == Default(c.insecure, FormatBool(g.insecure))
    ensures c.labels.Some? ==> r.labels == Some(FillLabels(c.labels.value, g.labels))
    ensures c.labels.None? ==> r.labels == (if g.labels == map[] then None else Some(g.labels))
  {
    var labels :=
      if c.labels.None? && g.labels == map[] then None
      else Some(FillLabels(c.labels.GetOr(map[]), g.labels));
    assert c.labels.None? && g.labels != map[] ==> FillLabels(map[], g.labels) == g.labels;
    Client(c.endpoint, Default(c.auth, g.auth), Default(c.insecure, FormatBool(g.insecure)), labels)
  }

  /** A defaulted insecure flag reads back as the global flag. */
  lemma DefaultedInsecureParses(c: Client, g: GlobalClient)
    requires c.insecure == ""
    ensures ParseBool(FillClient(c, g).insecure) == Some(g.insecure)
  {
  }

  /** Defaulting a client twice is defaulting it once. */
  lemma FillClientIdempotent(c: Client, g: GlobalClient)
    ensures FillClient(FillClient(c, g), g) == FillClient(c, g)
  {
    if c.labels.Some? {
      FillLabelsIdempotent(c.labels.value, g.labels);
    } else if g.labels != map[] {
      FillLabelsIdempotent(map[], g.labels);
    }
  }

  /** The index of the first client without an endpoint, or the length when there is none. */
  function FirstMissingEndpoint(cs: seq<Client>): (n: nat)
    ensures n <= |cs|
    ensures forall i :: 0 <= i < n ==> cs[i].endpoint != ""
    ensures n < |cs| ==> cs[n].endpoint == ""
    decreases |cs|
  {
    if cs == [] then 0
    else if cs[0].endpoint == "" then 0
    else 1 + FirstMissingEndpoint(cs[1..])
  }

  /** Every client of the prefix defaulted. */
  function FillClients(cs: seq<Client>, g: GlobalClient): (r: seq<Client>)
    ensures |r| == |cs| && forall i :: 0 <= i < |cs| ==> r[i] == FillClient(cs[i], g)
  {
    seq(|cs|, i requires 0 <= i < |cs| => FillClient(cs[i], g))
  }

  // ------------------------------------------------------------------ servers

  function FillServer(sv: ServerSection, g: GlobalServer): (r: ServerSection)
    ensures r.endpoint == Default(sv.endpoint, g.endpoint) && r.apiPath == Default(sv.apiPath, g.apiPath)
    ensures r.insecure == Default(sv.insecure, FormatBool(g.insecure)) && r.mode == Default(sv.mode, g.mode)
    ensures r.enabled == sv.enabled
  {
    ServerSection(Default(sv.endpoint, g.endpoint), Default(sv.apiPath, g.apiPath), Default(sv.mode, g.mode),
                  Default(sv.insecure, FormatBool(g.insecure)), sv.enabled)
  }

  lemma FillServerIdempotent(sv: ServerSection, g: GlobalServer)
    ensures FillServer(FillServer(sv, g), g) == FillServer(sv, g)
  {
  }

  /** The server block defaulted, or `None` when a section is nil (the reflection walk panics). */
  function FillServers(s: Servers, g: GlobalServer): (r: Option<Servers>)
    ensures r.None? <==> s.metrics.None? || s.logs.None? || s.traces.None?
    ensures r.Some? ==> r.value == Servers(Some(FillServer(s.metrics.value, g)),
      Some(FillServer(s.logs.value, g)), Some(FillServer(s.traces.value, g)))
  {
    if s.metrics.None? || s.logs.None? || s.traces.None? then None
    else Some(Servers(Some(FillServer(s.metrics.value, g)), Some(FillServer(s.logs.value, g)),
                      Some(FillServer(s.traces.value, g))))
  }

  /** The exporter endpoint of a section: endpoint and API path when enabled, `""` otherwise. */
  function Endpoint(sv: ServerSection): (r: string)
    ensures sv.enabled ==> r == sv.endpoint + sv.apiPath
    ensures !sv.enabled ==> r == ""
  {
    if sv.enabled then sv.endpoint + sv.apiPath else ""
  }

  function Mode(sv: ServerSection): (r: string)
    ensures sv.enabled ==> r == sv.mode
    ensures !sv.enabled ==> r == ""
  {
    if sv.enabled then sv.mode else ""
  }

  /** The insecure flag of a section; one that does not parse reads as false. */
  function Insecure(sv: ServerSection): (r: bool)
    ensures ParseBool(sv.insecure).Some? ==> r == ParseBool(sv.insecure).value
    ensures ParseBool(sv.insecure).None? ==> !r
  {
    ParseBool(sv.insecure).GetOr(false)
  }

  /**
   * After defaulting, an enabled section left empty reports the global
   * endpoint and mode, and its insecure flag reads back as the global one.
   */
  lemma DefaultedSectionGetters(sv: ServerSection, g: GlobalServer)
    requires sv.endpoint == "" && sv.apiPath == "" && sv.mode == "" && sv.insecure == ""
    ensures sv.enabled ==> Endpoint(FillServer(sv, g)) == g.endpoint + g.apiPath
    ensures sv.enabled ==> Mode(FillServer(sv, g)) == g.mode
    ensures Insecure(FillServer(sv, g)) == g.insecure
  {
  }

  // ---------------------------------------------------------------- providers

  /** Only an enabled section with an empty interval receives the global interval. */
  function FillProvider(pv: ProviderSection, interval: string): (r: ProviderSection)
    ensures r.enabled == pv.enabled && r.level == pv.level
    ensures r.interval == (if pv.enabled && pv.interval == "" then interval else pv.interval)
  {
    if pv.enabled && pv.interval == "" then pv.(interval := interval) else pv
  }

  /** Every section is present (not nil). */
  predicate AllPresent(ps: seq<Option<ProviderSection>>) {
    forall i :: 0 <= i < |ps| ==> ps[i].Some?
  }

  function FillProviders(ps: seq<Option<ProviderSection>>, interval: string): (r: seq<Option<ProviderSection>>)
    requires AllPresent(ps)
    ensures |r| == |ps| && forall i :: 0 <= i < |ps| ==> r[i] == Some(FillProvider(ps[i].value, interval))
  {
    seq(|ps|, i requires 0 <= i < |ps| => Some(FillProvider(ps[i].value, interval)))
  }

  // ---------------------------------------------------------------------- auth

  const Colon: byte := 58

  /** What is encoded for a credential: user, colon, password. */
  function Credentials(a: Auth): Bytes {
    a.user + [Colon] + a.password
  }

  /** The index of the first credential with the name, if any. */
  function FirstAuth(auths: seq<Auth>, name: string): (r: Option<nat>)
    ensures r.None? <==> forall i :: 0 <= i < |auths| ==> auths[i].name != name
    ensures r.Some? ==> (r.value < |auths| && auths[r.value].name == name &&
      forall j :: 0 <= j < r.value ==> auths[j].name != name)
    decreases |auths|
  {
    if auths == [] then None
    else if auths[0].name == name then Some(0)
    else match FirstAuth(auths[1..], name)
      case None => None
      case Some(i) => Some(i + 1)
  }

  /** The base64 of the first matching credential, or `""` when no name matches. */
  function SearchAuth(auths: seq<Auth>, name: string): (r: string)
    ensures FirstAuth(auths, name).None? ==> r == ""
    ensures FirstAuth(auths, name).Some? ==> r == Base64.Encode(Credentials(auths[FirstAuth(auths, name).value]))
    decreases |auths|
  {
    if auths == [] then ""
    else if auths[0].name == name then Base64.Encode(Credentials(auths[0]))
    else SearchAuth(auths[1..], name)
  }

  /**
   * The search result is empty exactly when no credential has the name,
   * and otherwise decodes to the first match's `user:password`.
   */
  lemma SearchAuthDecodes(auths: seq<Auth>, name: string)
    ensures SearchAuth(auths, name) == "" <==> FirstAuth(auths, name).None?
    ensures FirstAuth(auths, name).Some? ==>
      Base64.Decode(SearchAuth(auths, name)) == Some(Credentials(auths[FirstAuth(auths, name).value]))
  {
    if FirstAuth(auths, name).Some? {
      var a := auths[FirstAuth(auths, name).value];
      Base64.EncodeEmpty(Credentials(a));
      Base64.DecodeEncode(Credentials(a));
    }
  }

  // ------------------------------------------------------- the configuration

  /** `LabelPanic` is the label write into a nil map, which only the pass as written reaches. */
  datatype ApplyOutcome = Applied | Failed(message: string) | ReflectionPanic | LabelPanic

  /** Everything a configuration holds: the defaults with whatever the file set over them. */
  datatype Document = Document(
    global: Global,
    clients: Option<seq<Client>>,
    auths: seq<Auth>,
    servers: Servers,
    providers: Option<seq<Option<ProviderSection>>>)

  /**
   * What the defaulting pass ends in: a nil target list and a target
   * without an endpoint are errors; otherwise a nil server section, a nil
   * providers block or a nil provider section panics.
   */
  function OutcomeOf(d: Document): (r: ApplyOutcome)
    ensures r == Failed("no clients configured") <==> d.clients.None?
    ensures r == Failed("client endpoint is required") <==>
      (d.clients.Some? && exists i :: 0 <= i < |d.clients.value| && d.clients.value[i].endpoint == "")
    ensures r == Applied <==> (d.clients.Some? &&
      (forall i :: 0 <= i < |d.clients.value| ==> d.clients.value[i].endpoint != "") &&
      d.servers.metrics.Some? && d.servers.logs.Some? && d.servers.traces.Some? &&
      d.providers.Some? && AllPresent(d.providers.value))
    ensures r.Failed? || r == Applied || r == ReflectionPanic
  {
    if d.clients.None? then Failed("no clients configured")
    else if FirstMissingEndpoint(d.clients.value) < |d.clients.value| then Failed("client endpoint is required")
    else if FillServers(d.servers, d.global.server).None? || d.providers.None? || !AllPresent(d.providers.value) then
      ReflectionPanic
    else Applied
  }

  /**
   * The configuration after a pass that did not panic: the targets before
   * the first one without an endpoint are defaulted and the rest untouched;
   * server and provider sections are defaulted only when every target was.
   */
  function AfterApply(d: Document): (r: Document)
    requires OutcomeOf(d) != ReflectionPanic
    ensures r.global == d.global && r.auths == d.auths
    ensures d.clients.None? ==> r == d
    ensures d.clients.Some? ==> (r.clients.Some? && |r.clients.value| == |d.clients.value| &&
      (forall i :: 0 <= i < FirstMissingEndpoint(d.clients.value) ==>
        r.clients.value[i] == FillClient(d.clients.value[i], d.global.client)) &&
      (forall i :: FirstMissingEndpoint(d.clients.value) <= i < |d.clients.value| ==>
        r.clients.value[i] == d.clients.value[i]))
    ensures OutcomeOf(d).Failed? ==> r.servers == d.servers && r.providers == d.providers
    ensures OutcomeOf(d) == Applied ==> (r.servers == FillServers(d.servers, d.global.server).value &&
      r.providers == Some(FillProviders(d.providers.value, d.global.providerInterval)))
  {
    if d.clients.None? then d
    else
      var cs := d.clients.value;
      var stop := FirstMissingEndpoint(cs);
      var filled := d.(clients := Some(FillClients(cs[..stop], d.global.client) + cs[stop..]));
      if stop < |cs| then filled
      else filled.(servers := FillServers(d.servers, d.global.server).value,
                   providers := Some(FillProviders(d.providers.value, d.global.providerInterval)))
  }

  /** The global block and server block every configuration starts from. */
  const DefaultGlobal: Global :=
    Global(GlobalServer("http://127.0.0.1:8080", "", false, "http"), GlobalClient("", false, map[]), "1m")

  const DefaultServerSection: ServerSection := ServerSection("", "", "", "", true)

  const DefaultServers: Servers := Servers(Some(DefaultServerSection), Some(DefaultServerSection), Some(DefaultServerSection))

  /**
   * With the default global and server blocks, a pass that completes
   * leaves the metrics and logs exporters on the local collector over
   * plain http, without skipping certificate checks.
   */
  lemma DefaultServerGetters(d: Document)
    requires d.global == DefaultGlobal && d.servers == DefaultServers && OutcomeOf(d) == Applied
    ensures var s := AfterApply(d).servers;
      Endpoint(s.metrics.value) == "http://127.0.0.1:8080" && Mode(s.metrics.value) == "http" && !Insecure(s.metrics.value) &&
      Endpoint(s.logs.value) == "http://127.0.0.1:8080" && Mode(s.logs.value) == "http" && !Insecure(s.logs.value)
  {
    DefaultedSectionGetters(DefaultServerSection, DefaultGlobal.server);
    assert DefaultGlobal.server.endpoint + DefaultGlobal.server.apiPath == "http://127.0.0.1:8080";
  }

  /** A completed pass leaves nothing more to default: running it again changes nothing. */
  lemma ApplyGlobalIdempotent(d: Document)
    requires OutcomeOf(d) == Applied
    ensures OutcomeOf(AfterApply(d)) == Applied
    ensures AfterApply(AfterApply(d)) == AfterApply(d)
  {
    var g := d.global;
    var cs := d.clients.value;
    FirstMissingIsFirst(cs, |cs|);
    WholePrefix(cs, g.client);
    var once := AfterApply(d);
    var fc := once.clients.value;
    assert fc == FillClients(cs, g.client);
    FirstMissingIsFirst(fc, |fc|);
    FillServersIdempotent(d.servers, g.server);
    FillProvidersIdempotent(d.providers.value, g.providerInterval);
    assert OutcomeOf(once) == Applied;
    WholePrefix(fc, g.client);
    FillClientsIdempotent(cs, g.client);
  }

  /** With no target missing an endpoint, the pass defaults the whole list. */
  lemma WholePrefix(cs: seq<Client>, g: GlobalClient)
    ensures FillClients(cs[..|cs|], g) + cs[|cs|..] == FillClients(cs, g)
  {
    assert cs[..|cs|] == cs && cs[|cs|..] == [];
  }

  lemma FillClientsIdempotent(cs: seq<Client>, g: GlobalClient)
    ensures FillClients(FillClients(cs, g), g) == FillClients(cs, g)
  {
    var once := FillClients(cs, g);
    forall i | 0 <= i < |cs| ensures FillClients(once, g)[i] == once[i] {
      FillClientIdempotent(cs[i], g);
    }
  }

  lemma FillProvidersIdempotent(ps: seq<Option<ProviderSection>>, interval: string)
    requires AllPresent(ps)
    ensures AllPresent(FillProviders(ps, interval))
    ensures FillProviders(FillProviders(ps, interval), interval) == FillProviders(ps, interval)
  {
  }

  lemma FillServersIdempotent(s: Servers, g: GlobalServer)
    requires FillServers(s, g).Some?
    ensures FillServers(FillServers(s, g).value, g) == FillServers(s, g)
  {
    FillServerIdempotent(s.metrics.value, g);
    FillServerIdempotent(s.logs.value, g);
    FillServerIdempotent(s.traces.value, g);
  }

  // ------------------------------------------------------ the pass as written

  /**
   * How the client loop as written ends: every target defaulted, the error
   * at a target without an endpoint (the targets before it stay defaulted,
   * as they are shared by pointer), or the label panic.
   */
  datatype ClientsRun = AllFilled(filled: seq<Client>) | StoppedAtMissing(filled: seq<Client>) | LabelPanicked

  /** The client loop as written, target by target, each target's step being `FillClientAsWritten`. */
  function ClientsAsWritten(cs: seq<Client>, g: GlobalClient): (r: ClientsRun)
    ensures r.AllFilled? ==> |r.filled| == |cs|
    ensures r.StoppedAtMissing? ==> |r.filled| < |cs|
    decreases |cs|
  {
    if cs == [] then AllFilled([])
    else if cs[0].endpoint == "" then StoppedAtMissing([])
    else match FillClientAsWritten(cs[0], g)
      case None => LabelPanicked
      case Some(c) =>
        match ClientsAsWritten(cs[1..], g)
        case AllFilled(rest) => AllFilled([c] + rest)
        case StoppedAtMissing(rest) => StoppedAtMissing([c] + rest)
        case LabelPanicked => LabelPanicked
  }

  /** One of the first `n` targets has no label map, and the global block has labels. */
  predicate LabelPanicBefore(cs: seq<Client>, g: GlobalClient, n: nat) {
    g.labels != map[] && exists i :: 0 <= i < n && i < |cs| && cs[i].labels.None?
  }

  /**
   * The loop as written panics exactly when a target it reaches (one before
   * the first without an endpoint) has no label map under global labels;
   * otherwise it stops exactly where the corrected loop stops and leaves
   * the same targets defaulted.
   */
  lemma {:induction false} ClientsAsWrittenMeaning(cs: seq<Client>, g: GlobalClient)
    ensures ClientsAsWritten(cs, g).LabelPanicked? <==> LabelPanicBefore(cs, g, FirstMissingEndpoint(cs))
    ensures ClientsAsWritten(cs, g).StoppedAtMissing? <==>
      (!LabelPanicBefore(cs, g, FirstMissingEndpoint(cs)) && FirstMissingEndpoint(cs) < |cs|)
    ensures !ClientsAsWritten(cs, g).LabelPanicked? ==>
      ClientsAsWritten(cs, g).filled == FillClients(cs[..FirstMissingEndpoint(cs)], g)
    decreases |cs|
  {
    if cs == [] || cs[0].endpoint == "" {
      assert FirstMissingEndpoint(cs) == 0;
      assert !LabelPanicBefore(cs, g, 0);
      assert FillClients(cs[..0], g) == [];
    } else {
      var tail := cs[1..];
      ClientsAsWrittenMeaning(tail, g);
      var n := FirstMissingEndpoint(cs);
      assert n == 1 + FirstMissingEndpoint(tail);
      ShiftLabelPanic(cs, g, n);
      if FillClientAsWritten(cs[0], g).Some? && !ClientsAsWritten(tail, g).LabelPanicked? {
        assert cs[..n] == [cs[0]] + tail[..n - 1];
        FillClientsCons(cs[0], tail[..n - 1], g);
      }
    }
  }

  /** Past a first target that does not panic, the panic condition moves one target along. */
  lemma ShiftLabelPanic(cs: seq<Client>, g: GlobalClient, n: nat)
    requires 1 <= n <= |cs|
    ensures LabelPanicBefore(cs, g, n) <==>
      (g.labels != map[] && cs[0].labels.None?) || LabelPanicBefore(cs[1..], g, n - 1)
  {
    if LabelPanicBefore(cs[1..], g, n - 1) {
      var i :| 0 <= i < n - 1 && i < |cs[1..]| && cs[1..][i].labels.None?;
      assert cs[i + 1] == cs[1..][i];
    }
    if LabelPanicBefore(cs, g, n) && cs[0].labels.Some? {
      var i :| 0 <= i < n && i < |cs| && cs[i].labels.None?;
      assert cs[1..][i - 1] == cs[i];
    }
  }

  lemma FillClientsCons(c: Client, cs: seq<Client>, g: GlobalClient)
    ensures FillClients([c] + cs, g) == [FillClient(c, g)] + FillClients(cs, g)
  {
    var lhs, rhs := FillClients([c] + cs, g), [FillClient(c, g)] + FillClients(cs, g);
    assert |lhs| == |rhs|;
    forall i | 0 <= i < |lhs| ensures lhs[i] == rhs[i] {
      if i > 0 {
        assert ([c] + cs)[i] == cs[i - 1];
      }
    }
  }

  /** The outcome of the pass as the source writes it, with the label write able to panic. */
  function OutcomeAsWritten(d: Document): (r: ApplyOutcome)
    ensures d.clients.None? ==> r == Failed("no clients configured")
  {
    if d.clients.None? then Failed("no clients configured")
    else match ClientsAsWritten(d.clients.value, d.global.client)
      case LabelPanicked => LabelPanic
      case StoppedAtMissing(_) => Failed("client endpoint is required")
      case AllFilled(_) =>
        if FillServers(d.servers, d.global.server).None? || d.providers.None? || !AllPresent(d.providers.value) then
          ReflectionPanic
        else Applied
  }

  /** The configuration after a pass as written that did not panic. */
  function AfterAsWritten(d: Document): (r: Document)
    requires OutcomeAsWritten(d) != LabelPanic && OutcomeAsWritten(d) != ReflectionPanic
    ensures r.global == d.global && r.auths == d.auths
  {
    if d.clients.None? then d
    else
      var cs := d.clients.value;
      match ClientsAsWritten(cs, d.global.client)
      case StoppedAtMissing(filled) => d.(clients := Some(filled + cs[|filled|..]))
      case AllFilled(filled) =>
        d.(clients := Some(filled), servers := FillServers(d.servers, d.global.server).value,
           providers := Some(FillProviders(d.providers.value, d.global.providerInterval)))
  }

  /**
   * The pass as written and the corrected pass differ only by the label
   * panic: unless a target the loop reaches has no label map under global
   * labels, both end alike and leave the same configuration.
   */
  lemma AsWrittenAgrees(d: Document)
    ensures OutcomeAsWritten(d) == LabelPanic <==>
      (d.clients.Some? && LabelPanicBefore(d.clients.value, d.global.client, FirstMissingEndpoint(d.clients.value)))
    ensures OutcomeAsWritten(d) != LabelPanic ==> OutcomeAsWritten(d) == OutcomeOf(d)
    ensures OutcomeAsWritten(d) != LabelPanic && OutcomeAsWritten(d) != ReflectionPanic ==>
      AfterAsWritten(d) == AfterApply(d)
  {
    if d.clients.Some? {
      var cs := d.clients.value;
      var g := d.global.client;
      ClientsAsWrittenMeaning(cs, g);
      var n := FirstMissingEndpoint(cs);
      var run := ClientsAsWritten(cs, g);
      if run.StoppedAtMissing? {
        MissingEndpointOutcome(d);
        assert |run.filled| == n;
      } else if run.AllFilled? && OutcomeAsWritten(d) == Applied {
        CompleteOutcome(d);
        assert cs[n..] == [];
        assert run.filled + cs[n..] == run.filled;
      }
    }
  }

  /**
   * The document of the finding: one target without labels and one global
   * label. The corrected pass completes; the pass as written panics.
   */
  lemma LabellessTargetPanics()
    ensures var d := Document(
      Global(DefaultGlobal.server, GlobalClient("", false, map["site" := "dc1"]), "1m"),
      Some([Client("https://10.0.0.1", "", "", None)]), [], DefaultServers, Some([]));
      OutcomeOf(d) == Applied && OutcomeAsWritten(d) == LabelPanic
  {
    var d := Document(
      Global(DefaultGlobal.server, GlobalClient("", false, map["site" := "dc1"]), "1m"),
      Some([Client("https://10.0.0.1", "", "", None)]), [], DefaultServers, Some([]));
    assert map["site" := "dc1"] != map[] by {
      assert "site" in map["site" := "dc1"];
    }
    assert FirstMissingEndpoint(d.clients.value) == 1;
    assert LabelPanicBefore(d.clients.value, d.global.client, 1);
    AsWrittenAgrees(d);
  }

  /** Reading the file and decoding it over the configuration: a failure to read, a failure to decode, or the result. */
  datatype Decoding = Unreadable(message: string) | Malformed(message: string) | Decoded(document: Document)

  datatype LoadOutcome = ReadFailed(message: string) | DecodeFailed(message: string) |
    ApplyFailed(message: string) | ApplyPanicked | Loaded

  /** How a defaulting outcome is reported by the file loader. */
  function Reported(outcome: ApplyOutcome): (r: LoadOutcome)
    ensures outcome.Failed? <==> r.ApplyFailed?
    ensures outcome.Failed? ==> r.message == outcome.message
    ensures outcome == ReflectionPanic || outcome == LabelPanic <==> r == ApplyPanicked
    ensures outcome == Applied <==> r == Loaded
  {
    match outcome
    case Applied => Loaded
    case Failed(message) => ApplyFailed(message)
    case ReflectionPanic | LabelPanic => ApplyPanicked
  }

  class Configuration {
    var global: Global
    /** `None` is a nil target list. */
    var clients: Option<seq<Client>>
    var auths: seq<Auth>
    var servers: Servers
    /** `None` is a nil providers block. */
    var providers: Option<seq<Option<ProviderSection>>>

    function State(): Document
      reads this
    {
      Document(global, clients, auths, servers, providers)
    }

    constructor (d: Document)
      ensures State() == d
    {
      global := d.global;
      clients := d.clients;
      auths := d.auths;
      servers := d.servers;
      providers := d.providers;
    }

    /**
     * Reading and decoding the file: a read or decode error is returned
     * as it is and leaves the configuration as it was.
     */
    method Unmarshal(decoding: Decoding) returns (outcome: LoadOutcome)
      modifies this
      ensures decoding.Unreadable? ==> outcome == ReadFailed(decoding.message) && State() == old(State())
      ensures decoding.Malformed? ==> outcome == DecodeFailed(decoding.message) && State() == old(State())
      ensures decoding.Decoded? ==> outcome == Loaded && State() == decoding.document
    {
      match decoding
      case Unreadable(message) => return ReadFailed(message);
      case Malformed(message) => return DecodeFailed(message);
      case Decoded(d) =>
        global := d.global;
        clients := d.clients;
        auths := d.auths;
        servers := d.servers;
        providers := d.providers;
        return Loaded;
    }

    /** Reading, decoding and defaulting; the first error stops it and is returned. */
    method LoadFile(decoding: Decoding) returns (outcome: LoadOutcome)
      modifies this
      ensures !decoding.Decoded? ==> State() == old(State())
      ensures decoding.Unreadable? ==> outcome == ReadFailed(decoding.message)
      ensures decoding.Malformed? ==> outcome == DecodeFailed(decoding.message)
      ensures decoding.Decoded? ==> (outcome == Reported(OutcomeOf(decoding.document)) &&
        (outcome != ApplyPanicked ==> State() == AfterApply(decoding.document)))
    {
      outcome := Unmarshal(decoding);
      if outcome != Loaded {
        return;
      }
      var applied := ApplyGlobal();
      outcome := Reported(applied);
    }

    /**
     * The client loop: each target in order is defaulted until one without
     * an endpoint stops it, so the targets before it stay defaulted.
     */
    method ApplyClients() returns (failed: bool)
      requires clients.Some?
      modifies this
      ensures global == old(global) && auths == old(auths) && servers == old(servers) && providers == old(providers)
      ensures var cs := old(clients).value; var stop := FirstMissingEndpoint(cs);
        clients == Some(FillClients(cs[..stop], global.client) + cs[stop..]) &&
        (failed <==> stop < |cs|)
    {
      var filled;
      filled, failed := DefaultClients(clients.value, global.client);
      clients := Some(filled);
    }

    /**
     * The whole defaulting pass: targets, then the server sections, then
     * the enabled provider sections.
     */
    method ApplyGlobal() returns (outcome: ApplyOutcome)
      modifies this
      ensures global == old(global) && auths == old(auths)
      ensures outcome == OutcomeOf(old(State()))
      ensures outcome != ReflectionPanic ==> State() == AfterApply(old(State()))
    {
      ghost var d := State();
      if clients.None? {
        return Failed("no clients configured");
      }
      var failed := ApplyClients();
      if failed {
        MissingEndpointOutcome(d);
        return Failed("client endpoint is required");
      }
      CompleteOutcome(d);
      var filled := FillServers(servers, global.server);
      if filled.None? {
        return ReflectionPanic;
      }
      servers := filled.value;
      if providers.None? {
        return ReflectionPanic;
      }
      var filledProviders := DefaultProviders(providers.value, global.providerInterval);
      if filledProviders.None? {
        return ReflectionPanic;
      }
      providers := filledProviders;
      outcome := Applied;
    }
  }

  /** The pass stops at a target without an endpoint. */
  lemma MissingEndpointOutcome(d: Document)
    requires d.clients.Some? && FirstMissingEndpoint(d.clients.value) < |d.clients.value|
    ensures OutcomeOf(d) == Failed("client endpoint is required")
    ensures var cs := d.clients.value;
      AfterApply(d) == d.(clients := Some(FillClients(cs[..FirstMissingEndpoint(cs)], d.global.client) + cs[FirstMissingEndpoint(cs)..]))
  {
  }

  /** Every target has an endpoint: the pass goes on to the server and provider blocks. */
  lemma CompleteOutcome(d: Document)
    requires d.clients.Some? && FirstMissingEndpoint(d.clients.value) == |d.clients.value|
    ensures OutcomeOf(d) == (if FillServers(d.servers, d.global.server).None? || d.providers.None? ||
      !AllPresent(d.providers.value) then ReflectionPanic else Applied)
    ensures OutcomeOf(d) == Applied ==> (var cs := d.clients.value;
      AfterApply(d) == d.(clients := Some(FillClients(cs[..|cs|], d.global.client) + cs[|cs|..]),
                          servers := FillServers(d.servers, d.global.server).value,
                          providers := Some(FillProviders(d.providers.value, d.global.providerInterval))))
  {
  }

  /** The client loop over the target list. */
  method DefaultClients(cs: seq<Client>, g: GlobalClient) returns (r: seq<Client>, failed: bool)
    ensures r == FillClients(cs[..FirstMissingEndpoint(cs)], g) + cs[FirstMissingEndpoint(cs)..]
    ensures failed <==> FirstMissingEndpoint(cs) < |cs|
  {
    ghost var stop := FirstMissingEndpoint(cs);
    r := cs;
    var i := 0;
    while i < |cs|
      invariant i <= stop && |r| == |cs|
      invariant forall j :: 0 <= j < i ==> r[j] == FillClient(cs[j], g)
      invariant forall j :: i <= j < |cs| ==> r[j] == cs[j]
    {
      if cs[i].endpoint == "" {
        FirstMissingAt(cs, i);
        ClientsDone(cs, i, g, r);
        return r, true;
      }
      FirstMissingAfter(cs, i);
      var next := DefaultClient(r[i], g);
      r := r[i := next];
      i := i + 1;
    }
    ClientsDone(cs, i, g, r);
    failed := false;
  }

  /** The provider loop: every section defaulted in field order; `None` is the panic on a nil section. */
  method DefaultProviders(ps: seq<Option<ProviderSection>>, interval: string) returns (r: Option<seq<Option<ProviderSection>>>)
    ensures r.None? <==> !AllPresent(ps)
    ensures r.Some? ==> AllPresent(ps) && r.value == FillProviders(ps, interval)
  {
    var current := ps;
    var i := 0;
    assert FillProviders(ps[..0], interval) + ps[0..] == ps;
    while i < |ps|
      invariant 0 <= i <= |ps|
      invariant AllPresent(ps[..i])
      invariant current == FillProviders(ps[..i], interval) + ps[i..]
    {
      if ps[i].None? {
        return None;
      }
      ProvidersStep(ps, i, interval);
      current := current[i := Some(FillProvider(ps[i].value, interval))];
      i := i + 1;
    }
    assert ps[..|ps|] == ps && ps[|ps|..] == [];
    r := Some(current);
  }

  /** One target of the client loop: its settings defaulted and the global labels written in. */
  method DefaultClient(c: Client, g: GlobalClient) returns (next: Client)
    ensures next == FillClient(c, g)
  {
    var labels := c.labels;
    if labels.Some? || g.labels != map[] {
      var filled := ApplyLabels(labels.GetOr(map[]), g.labels);
      labels := Some(filled);
    }
    next := Client(c.endpoint, Default(c.auth, g.auth), Default(c.insecure, FormatBool(g.insecure)), labels);
  }

  /** A missing endpoint at or before the first one is the first one. */
  lemma FirstMissingAt(cs: seq<Client>, i: nat)
    requires i <= FirstMissingEndpoint(cs) && i < |cs| && cs[i].endpoint == ""
    ensures FirstMissingEndpoint(cs) == i
  {
  }

  /** A present endpoint at or before the first missing one lies before it. */
  lemma FirstMissingAfter(cs: seq<Client>, i: nat)
    requires i <= FirstMissingEndpoint(cs) && i < |cs| && cs[i].endpoint != ""
    ensures i < FirstMissingEndpoint(cs)
  {
  }

  lemma FirstMissingIsFirst(cs: seq<Client>, i: nat)
    requires i <= |cs| && forall j :: 0 <= j < i ==> cs[j].endpoint != ""
    requires i < |cs| ==> cs[i].endpoint == ""
    ensures FirstMissingEndpoint(cs) == i
  {
  }

  /** A list defaulted up to `i` and untouched after it is the prefix defaulted, then the rest. */
  lemma ClientsDone(cs: seq<Client>, i: nat, g: GlobalClient, r: seq<Client>)
    requires i <= |cs| && |r| == |cs|
    requires forall j :: 0 <= j < i ==> r[j] == FillClient(cs[j], g)
    requires forall j :: i <= j < |cs| ==> r[j] == cs[j]
    ensures r == FillClients(cs[..i], g) + cs[i..]
  {
    var rhs := FillClients(cs[..i], g) + cs[i..];
    assert |rhs| == |r|;
    forall j | 0 <= j < |r| ensures r[j] == rhs[j] {
      if j < i {
        assert cs[..i][j] == cs[j];
      } else {
        assert cs[i..][j - i] == cs[j];
      }
    }
  }

  lemma ProvidersStep(ps: seq<Option<ProviderSection>>, i: nat, interval: string)
    requires i < |ps| && AllPresent(ps[..i]) && ps[i].Some?
    ensures AllPresent(ps[..i + 1])
    ensures (FillProviders(ps[..i], interval) + ps[i..])[i := Some(FillProvider(ps[i].value, interval))] ==
      FillProviders(ps[..i + 1], interval) + ps[i + 1..]
  {
    var pre := ps[..i + 1];
    assert AllPresent(pre) by {
      forall j | 0 <= j < |pre| ensures pre[j].Some? {
        if j < i {
          assert pre[j] == ps[..i][j];
        }
      }
    }
    var lhs := (FillProviders(ps[..i], interval) + ps[i..])[i := Some(FillProvider(ps[i].value, interval))];
    var rhs := FillProviders(ps[..i + 1], interval) + ps[i + 1..];
    assert |lhs| == |rhs|;
    forall j | 0 <= j < |lhs| ensures lhs[j] == rhs[j] {
      if j < i {
        assert ps[..i][j] == ps[j] && ps[..i + 1][j] == ps[j];
      } else if j > i {
        assert ps[i..][j - i] == ps[j];
      }
    }
  }
}
