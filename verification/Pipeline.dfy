/**
 * A configuration's way from the upstream file to the engine: the app's parser
 * and printer, the country merge in the Android service, the core's flat decoder;
 * and how that compares with the core's own parser of the upstream file.
 */
module Pipeline {
  import opened Util
  import opened Json
  import D = DartConfig
  import R = RustConfig

  // ---- The merge --------------------------------------------------------------

  /** The parsed object that `startTunnel` changes in place. */
  class JsonObject {
    var fields: Fields

    constructor (fields: Fields)
      ensures this.fields == fields
    {
      this.fields := fields;
    }

    method Put(key: string, value: Json)
      modifies this
      ensures fields == old(fields)[key := value]
    {
      fields := fields[key := value];
    }

    /** `optJSONObject`: the object under `key`, or null for anything else. */
    method OptObject(key: string) returns (inner: Option<Fields>)
      ensures inner == if key in fields && fields[key].Obj? then Some(fields[key].fields) else None
    {
      inner := if key in fields && fields[key].Obj? then Some(fields[key].fields) else None;
    }
  }

  /** Kotlin's `isWhitespace` within ASCII: the four information separators count as well. */
  predicate KotlinSpace(c: char) {
    Space(c) || 28 <= c as int <= 31
  }

  /** `isBlank`. */
  predicate KotlinBlank(s: string) {
    forall c | c in s :: KotlinSpace(c)
  }

  lemma KotlinBlankIff(s: string)
    ensures KotlinBlank(s) <==> forall c | c in s :: 9 <= c as int <= 13 || 28 <= c as int <= 32
  {
  }

  predicate Chosen(country: Option<string>) {
    country.Some? && !KotlinBlank(country.value)
  }

  function UserOf(o: Fields): Fields {
    if "user" in o && o["user"].Obj? then o["user"].fields else map[]
  }

  function Merged(o: Fields, country: Option<string>): Fields {
    if Chosen(country) then o["user" := Obj(UserOf(o)["exit_country" := Str(country.value)])] else o
  }

  /** The country injection of `startTunnel`. */
  method Inject(parsed: JsonObject, country: Option<string>)
    modifies parsed
    ensures parsed.fields == Merged(old(parsed.fields), country)
  {
    if country.Some? && !KotlinBlank(country.value) {
      var existing := parsed.OptObject("user");
      var user := new JsonObject(if existing.Some? then existing.value else map[]);
      user.Put("exit_country", Str(country.value));
      parsed.Put("user", Obj(user.fields));
    }
  }

  /** The merge writes one subkey and nothing else, and doing it twice changes nothing more. */
  lemma MergeFrame(o: Fields, country: Option<string>)
    ensures Merged(o, country) - {"user"} == o - {"user"}
    ensures UserOf(Merged(o, country)) - {"exit_country"} == UserOf(o) - {"exit_country"}
    ensures Chosen(country) ==>
              var m := Merged(o, country);
              "user" in m && m["user"].Obj? && "exit_country" in m["user"].fields
              && m["user"].fields["exit_country"] == Str(country.value)
    ensures !Chosen(country) ==> Merged(o, country) == o
    ensures Merged(Merged(o, country), country) == Merged(o, country)
  {
    if Chosen(country) {
      var m := Merged(o, country);
      assert UserOf(m)["exit_country" := Str(country.value)] == UserOf(m);
    }
  }

  /** A country that is left out or blank changes nothing; any other is written as it was chosen. */
  lemma CountryIsSetIff(o: Fields, country: Option<string>)
    ensures var blank := country.None? || forall c | c in country.value :: 9 <= c as int <= 13 || 28 <= c as int <= 32;
            var m := Merged(o, country);
            if blank then m == o
            else "user" in m && m["user"].Obj? && "exit_country" in m["user"].fields
                 && m["user"].fields["exit_country"] == Str(country.value)
  {
    if country.Some? {
      KotlinBlankIff(country.value);
    }
  }

  function WithCountry(p: R.UserPrefs, country: Option<string>): R.UserPrefs {
    if Chosen(country) then p.(exitCountry := country) else p
  }

  /** Decoding after the merge is decoding before it with the country set. */
  lemma MergeThenDecode(o: Fields, country: Option<string>, parseIp: IpParser)
    requires R.DecodeFlat(Obj(o), parseIp).Ok?
    ensures var before := R.DecodeFlat(Obj(o), parseIp).value;
            R.DecodeFlat(Obj(Merged(o, country)), parseIp) == Ok(before.(user := WithCountry(before.user, country)))
  {
    hide R.DecodeFlatOutbound, R.FlatIp;
    var m := Merged(o, country);
    assert R.FlatIp(m, parseIp) == R.FlatIp(o, parseIp) by { IpReadsOneKey(o, country, parseIp); }
    PrefsAfterMerge(o, country);
  }

  lemma IpReadsOneKey(o: Fields, country: Option<string>, parseIp: IpParser)
    ensures R.FlatIp(Merged(o, country), parseIp) == R.FlatIp(o, parseIp)
  {
  }

  lemma PrefsAfterMerge(o: Fields, country: Option<string>)
    requires R.DecodePrefs(o).Ok?
    ensures R.DecodePrefs(Merged(o, country)) == Ok(WithCountry(R.DecodePrefs(o).value, country))
  {
  }

  // ---- From the app's configuration to the engine ------------------------------

  predicate IpOk(ip: Option<string>, parseIp: IpParser) {
    ip.None? || parseIp(ip.value).Some?
  }

  function IpOf(ip: Option<string>, parseIp: IpParser): Option<IpAddr> {
    if ip.None? then None else parseIp(ip.value)
  }

  lemma RealityAgrees(r: Reality)
    ensures R.DecodeReality(D.RealityToJson(r), "server_name", "public_key", "short_id") == Ok(r)
  {
  }

  lemma OutboundAgrees(o: Outbound)
    ensures var r := R.DecodeFlatOutbound(D.OutboundToJson(o)); if 0 <= o.port < 0x1_0000 then r == Ok(o) else r.Err?
  {
    RealityAgrees(o.reality);
    hide D.RealityToJson, R.DecodeReality;
  }

  lemma FlatAgrees(c: D.DartConfig, parseIp: IpParser)
    ensures var r := R.DecodeFlat(D.ToJson(c), parseIp);
            if IpOk(c.dohServerIp, parseIp) && 0 <= c.outbound.port < 0x1_0000 then
              r == Ok(R.AppConfig(c.bridgeRsaId, c.bridgeEd25519Id, c.dohServer, IpOf(c.dohServerIp, parseIp),
                                  c.outbound, R.NO_PREFS))
            else r.Err?
  {
    OutboundAgrees(c.outbound);
    hide D.OutboundToJson, R.DecodeFlatOutbound;
  }

  /**
   * The app's configuration reaches the engine field by field, with the chosen
   * country added, if and only if its resolver address is absent or parses and its
   * port fits 16 bits; otherwise the start is refused.
   */
  lemma ConfigurationArrives(c: D.DartConfig, country: Option<string>, parseIp: IpParser)
    ensures var r := R.DecodeFlat(Obj(Merged(D.TopFields(c), country)), parseIp);
            if IpOk(c.dohServerIp, parseIp) && 0 <= c.outbound.port < 0x1_0000 then
              r == Ok(R.AppConfig(c.bridgeRsaId, c.bridgeEd25519Id, c.dohServer, IpOf(c.dohServerIp, parseIp),
                                  c.outbound, R.UserPrefs(if Chosen(country) then country else None, None, None)))
            else r.Err?
  {
    FlatAgrees(c, parseIp);
    if IpOk(c.dohServerIp, parseIp) && 0 <= c.outbound.port < 0x1_0000 {
      hide R.DecodeFlat;
      MergeThenDecode(D.TopFields(c), country, parseIp);
    } else {
      StillRefused(c, country, parseIp);
    }
  }

  lemma StillRefused(c: D.DartConfig, country: Option<string>, parseIp: IpParser)
    requires !(IpOk(c.dohServerIp, parseIp) && 0 <= c.outbound.port < 0x1_0000)
    ensures R.DecodeFlat(Obj(Merged(D.TopFields(c), country)), parseIp).Err?
  {
    OutboundAgrees(c.outbound);
    hide D.OutboundToJson, R.DecodeFlatOutbound, R.DecodePrefs;
  }

  // ---- The two parsers of the upstream file ------------------------------------

  /** The app's parser fills in a tag where the core leaves it empty. */
  function Retagged(o: Outbound, vless: Fields): Outbound {
    if "tag" in vless then o else o.(tag := "proxy")
  }

  lemma {:induction false} SameSelection(items: seq<Json>)
    requires R.DecodeList(items, R.DecodeOutbound).Ok?
    ensures var raws := R.DecodeList(items, R.DecodeOutbound).value;
            match R.FindVless(raws)
            case Some(o) => D.FirstVless(items).Some? && R.DecodeOutbound(Obj(D.FirstVless(items).value)) == Ok(o)
            case None => D.FirstVless(items).None?
    decreases |items|
  {
    if items == [] {
    } else {
      var raws := R.DecodeList(items, R.DecodeOutbound).value;
      DecodedProtocol(items[0]);
      hide R.DecodeOutbound;
      assert R.DecodeOutbound(items[0]) == Ok(raws[0]);
      assert R.DecodeList(items[1..], R.DecodeOutbound) == Ok(raws[1..]);
      CaseAgrees(raws[0].protocol, "vless");
      hide R.DecodeList;
      SameSelection(items[1..]);
    }
  }

  lemma DecodedProtocol(j: Json)
    requires R.DecodeOutbound(j).Ok?
    ensures j.Obj? && D.IsString(j.fields, "protocol") && j.fields["protocol"].s == R.DecodeOutbound(j).value.protocol
  {
  }

  lemma RealityRead(j: Json)
    requires R.DecodeReality(j, "serverName", "publicKey", "shortId").Ok?
    ensures j.Obj?
    ensures D.ReadReality(j.fields, "serverName", "publicKey", "shortId")
         == Some(R.DecodeReality(j, "serverName", "publicKey", "shortId").value)
  {
  }

  lemma StreamSelected(j: Json)
    requires R.DecodeStream(j).Ok?
    ensures j.Obj? && D.IsString(j.fields, "security") && D.IsString(j.fields, "network")
    ensures var s := R.DecodeStream(j).value;
            s.security == j.fields["security"].s && s.network == j.fields["network"].s
    ensures var s, g := R.DecodeStream(j).value, D.Get(j.fields, "grpcSettings");
            if g.Obj? then R.DecodeGrpc(g).Ok? && s.grpc == Some(R.DecodeGrpc(g).value) else s.grpc.None?
    ensures var s, x := R.DecodeStream(j).value, D.Get(j.fields, "realitySettings");
            var r := R.DecodeReality(x, "serverName", "publicKey", "shortId");
            if x.Obj? then r.Ok? && s.reality == Some(r.value) else s.reality.None?
  {
  }

  predicate StreamFits(s: R.RawStream) {
    SameIgnoringCase(s.security, "reality") && SameIgnoringCase(s.network, "grpc") && s.grpc.Some? && s.reality.Some?
  }

  lemma StreamAgrees(j: Json)
    requires R.DecodeStream(j).Ok?
    ensures j.Obj?
    ensures D.StreamUsable(j.fields) <==> StreamFits(R.DecodeStream(j).value)
    ensures D.StreamUsable(j.fields) ==>
              var s, grpc := R.DecodeStream(j).value, j.fields["grpcSettings"].fields;
              && D.IsString(grpc, "serviceName") && s.grpc == Some(grpc["serviceName"].s)
              && D.ReadReality(j.fields["realitySettings"].fields, "serverName", "publicKey", "shortId") == s.reality
  {
    StreamSelected(j);
    var s := R.DecodeStream(j).value;
    hide R.DecodeStream, R.DecodeReality, D.ReadReality;
    CaseAgrees(s.security, "reality");
    CaseAgrees(s.network, "grpc");
    if D.StreamUsable(j.fields) {
      RealityRead(j.fields["realitySettings"]);
    }
  }

  lemma FirstUser(j: Json)
    requires R.DecodeVnext(j).Ok?
    ensures j.Obj? && D.IsString(j.fields, "address") && D.Get(j.fields, "port").Int?
    ensures var v, port := R.DecodeVnext(j).value, j.fields["port"].n;
            v.address == j.fields["address"].s && v.port == port && 0 <= port < 0x1_0000
    ensures var users := R.DecodeVnext(j).value.users;
            match D.FirstObj(D.Get(j.fields, "users"))
            case None => users == []
            case Some(u) => users != [] && D.IsString(u, "id") && users[0] == R.RawUser(u["id"].s, users[0].flow)
                            && D.OrElse(u, "flow", "") == Some(users[0].flow)
  {
    var items := j.fields["users"].items;
    var users := R.DecodeVnext(j).value.users;
    assert R.DecodeList(items, R.DecodeUser) == Ok(users);
    hide R.DecodeList, R.DecodeVnext;
    if users != [] {
      assert R.DecodeUser(items[0]) == Ok(users[0]);
    }
  }

  lemma FirstVnext(list: Json)
    requires list.Arr? && R.DecodeList(list.items, R.DecodeVnext).Ok?
    ensures var vnext := R.DecodeList(list.items, R.DecodeVnext).value;
            match D.FirstObj(list)
            case None => vnext == []
            case Some(o) => vnext != [] && R.DecodeVnext(Obj(o)) == Ok(vnext[0])
  {
    hide R.DecodeVnext;
    var vnext := R.DecodeList(list.items, R.DecodeVnext).value;
    if vnext != [] {
      assert R.DecodeVnext(list.items[0]) == Ok(vnext[0]);
      FirstUser(list.items[0]);
    }
  }

  lemma OutboundParts(vless: Fields)
    requires R.DecodeOutbound(Obj(vless)).Ok?
    ensures D.Get(vless, "settings").Obj?
    ensures var list := D.Get(vless["settings"].fields, "vnext");
            list.Arr? && R.DecodeList(list.items, R.DecodeVnext) == Ok(R.DecodeOutbound(Obj(vless)).value.vnext)
    ensures R.DecodeStream(D.Get(vless, "streamSettings")) == Ok(R.DecodeOutbound(Obj(vless)).value.stream)
    ensures var tag := R.DecodeOutbound(Obj(vless)).value.tag;
            && D.OrElse(vless, "tag", "proxy") == Some(if "tag" in vless then tag else "proxy")
            && ("tag" !in vless ==> tag == "")
  {
    hide R.DecodeList, R.DecodeStream;
  }

  /** On an entry the core can decode, both parsers accept or reject alike and extract the same. */
  lemma SameExtraction(vless: Fields)
    requires R.DecodeOutbound(Obj(vless)).Ok?
    ensures match R.Extract(R.DecodeOutbound(Obj(vless)).value)
            case Ok(x) =>
              && D.ReadVless(vless) == Some(Retagged(x, vless))
              && ("tag" !in vless ==> x.tag == "") && 0 <= x.port < 0x1_0000
            case Err(_) => D.ReadVless(vless).None?
  {
    OutboundParts(vless);
    StreamAgrees(D.Get(vless, "streamSettings"));
    hide R.DecodeOutbound, R.DecodeList, R.DecodeStream, R.DecodeVnext, D.StreamUsable, D.ReadReality, D.FirstObj,
      SameIgnoringCase, D.OrElse;
    if StreamFits(R.DecodeOutbound(Obj(vless)).value.stream) {
      SameServer(vless);
    }
  }

  lemma SameServer(vless: Fields)
    requires R.DecodeOutbound(Obj(vless)).Ok? && StreamFits(R.DecodeOutbound(Obj(vless)).value.stream)
    ensures match R.Extract(R.DecodeOutbound(Obj(vless)).value)
            case Ok(x) =>
              && D.ReadVless(vless) == Some(Retagged(x, vless))
              && ("tag" !in vless ==> x.tag == "") && 0 <= x.port < 0x1_0000
            case Err(_) => D.ReadVless(vless).None?
  {
    OutboundParts(vless);
    StreamAgrees(D.Get(vless, "streamSettings"));
    hide R.DecodeOutbound, R.DecodeList, R.DecodeStream, R.DecodeVnext, D.StreamUsable, D.ReadReality, D.FirstObj,
      SameIgnoringCase, D.OrElse;
    var list := D.Get(vless["settings"].fields, "vnext");
    FirstVnext(list);
    if D.FirstObj(list).Some? {
      FirstUser(Obj(D.FirstObj(list).value));
    }
  }

  /** The entry the app's parser selects. */
  function Selected(j: Json): Fields
    requires D.Parse(j).Some?
  {
    D.FirstVless(j.fields["outbounds"].items).value
  }

  /**
   * What the core extracts from a file that the app reads as `d`; the two differ in the tag's
   * default and in the address.
   */
  function CoreView(j: Json, d: D.DartConfig, ip: Option<IpAddr>): R.AppConfig
    requires D.Parse(j) == Some(d)
  {
    R.AppConfig(d.bridgeRsaId, d.bridgeEd25519Id, d.dohServer, ip,
                if "tag" in Selected(j) then d.outbound else d.outbound.(tag := ""), R.NO_PREFS)
  }

  lemma RootParts(j: Json)
    requires R.DecodeRoot(j).Ok?
    ensures j.Obj? && D.Get(j.fields, "outbounds").Arr?
    ensures var raw := R.DecodeRoot(j).value;
            && R.DecodeList(j.fields["outbounds"].items, R.DecodeOutbound) == Ok(raw.outbounds)
            && forall x: Outbound ::
                 D.WithTop(j.fields, Some(x))
                 == Some(D.DartConfig(raw.bridgeRsaId, raw.bridgeEd25519Id, raw.dohServer, raw.dohServerIp, x))
  {
    hide R.DecodeList;
  }

  /**
   * On every file the core can decode, the two parsers accept the same and extract the same, up to
   * the address check.
   */
  lemma ParsersAgree(j: Json, parseIp: IpParser)
    requires R.DecodeRoot(j).Ok?
    ensures match D.Parse(j)
            case None => R.FromJson(j, parseIp).Err?
            case Some(d) =>
              var ip := R.DohIp(d.dohServerIp, parseIp);
              && 0 <= d.outbound.port < 0x1_0000
              && if ip.Ok? then R.FromJson(j, parseIp) == Ok(CoreView(j, d, ip.value)) else R.FromJson(j, parseIp).Err?
  {
    RootParts(j);
    var raw := R.DecodeRoot(j).value;
    var items := j.fields["outbounds"].items;
    SameSelection(items);
    var o := R.FindVless(raw.outbounds);
    var vless := D.FirstVless(items);
    hide R.DecodeRoot, R.DecodeList, R.DecodeOutbound, R.FindVless, R.Extract, R.DohIp, D.FirstVless, D.ReadVless,
      D.WithTop;
    if o.Some? {
      SameExtraction(vless.value);
      var x := R.Extract(o.value);
      if x.Err? {
        assert D.WithTop(j.fields, None).None? by { NoOutbound(j.fields); }
      } else {
        assert D.Parse(j) == D.WithTop(j.fields, Some(Retagged(x.value, vless.value)));
      }
    }
  }

  lemma NoOutbound(o: Fields)
    ensures D.WithTop(o, None).None?
  {
  }

  /** The app's parser accepts everything the core's does; exactly what it accepts beyond that. */
  lemma CoreAcceptsIff(j: Json, parseIp: IpParser)
    ensures R.FromJson(j, parseIp).Ok?
       <==> D.Parse(j).Some? && R.DecodeRoot(j).Ok? && R.DohIp(D.Parse(j).value.dohServerIp, parseIp).Ok?
  {
    if R.DecodeRoot(j).Ok? {
      ParsersAgree(j, parseIp);
      hide R.DecodeRoot, R.FromRaw, D.Parse;
    }
  }

  /**
   * From the upstream file through the app and the country merge to the engine:
   * the engine runs the configuration the core itself would have read, except for
   * the default tag and the country. It refuses to start exactly when the file's
   * resolver address is a blank string that is no address, which the core's own
   * parser takes for absent.
   */
  lemma FileReachesEngine(j: Json, country: Option<string>, parseIp: IpParser)
    requires R.FromJson(j, parseIp).Ok?
    ensures D.Parse(j).Some?
    ensures var r, d := R.FromJson(j, parseIp).value, D.Parse(j).value;
            var got := R.DecodeFlat(Obj(Merged(D.TopFields(d), country)), parseIp);
            if d.dohServerIp.Some? && Blank(d.dohServerIp.value) then
              got.Err? <==> parseIp(d.dohServerIp.value).None?
            else
              got == Ok(r.(outbound := Retagged(r.outbound, Selected(j)),
                           user := R.UserPrefs(if Chosen(country) then country else None, None, None)))
  {
    CoreAcceptsIff(j, parseIp);
    ParsersAgree(j, parseIp);
    var d := D.Parse(j).value;
    ConfigurationArrives(d, country, parseIp);
    hide R.DecodeFlat, R.FromJson, D.Parse, D.TopFields, Merged;
  }

  // ---- Outbounds of another protocol, in the file itself ------------------------

  lemma DecodeListInserted<T>(before: seq<Json>, x: Json, after: seq<Json>, decode: Json -> Result<T>)
    requires R.DecodeList(before + after, decode).Ok?
    ensures var all, most := R.DecodeList(before + [x] + after, decode), R.DecodeList(before + after, decode).value;
            if decode(x).Ok? then all == Ok(most[..|before|] + [decode(x).value] + most[|before|..]) else all.Err?
  {
    hide R.DecodeList;
    var more, n := before + [x] + after, |before|;
    var most := R.DecodeList(before + after, decode).value;
    assert more[n] == x;
    forall i | 0 <= i < |more| && i != n
      ensures decode(more[i]) == Ok(most[if i < n then i else i - 1])
    {
      assert more[i] == (before + after)[if i < n then i else i - 1];
    }
    if decode(x).Ok? {
      var all := R.DecodeList(more, decode).value;
      forall i | 0 <= i < |more|
        ensures all[i] == (most[..n] + [decode(x).value] + most[n..])[i]
      {
        assert decode(more[i]) == Ok(all[i]);
      }
      assert all == most[..n] + [decode(x).value] + most[n..];
    } else {
      assert decode(more[n]).Err?;
    }
  }

  function WithOutbounds(o: Fields, items: seq<Json>): Json {
    Obj(o["outbounds" := Arr(items)])
  }

  /**
   * An entry of another protocol put anywhere into an accepted file: the core
   * ignores it if and only if it has the whole shape of a proxy entry, and refuses
   * the file otherwise; the app ignores it whenever it names its protocol.
   */
  lemma ForeignOutbound(o: Fields, before: seq<Json>, x: Fields, after: seq<Json>, parseIp: IpParser)
    requires R.FromJson(WithOutbounds(o, before + after), parseIp).Ok?
    requires D.IsString(x, "protocol") && Lower(x["protocol"].s) != "vless"
    ensures var more, most := WithOutbounds(o, before + [Obj(x)] + after), WithOutbounds(o, before + after);
            && D.Parse(more) == D.Parse(most)
            && if R.DecodeOutbound(Obj(x)).Ok? then R.FromJson(more, parseIp) == R.FromJson(most, parseIp)
               else R.FromJson(more, parseIp).Err?
  {
    AppParseSkips(o, before, x, after);
    hide R.DecodeOutbound, R.FromJson, R.IsVless, D.Parse, D.IsString, Lower, WithOutbounds;
    if R.DecodeOutbound(Obj(x)).Ok? {
      NotVless(x);
    }
    CoreSkips(o, before, x, after, parseIp);
  }

  lemma CoreSkips(o: Fields, before: seq<Json>, x: Fields, after: seq<Json>, parseIp: IpParser)
    requires R.FromJson(WithOutbounds(o, before + after), parseIp).Ok?
    requires R.DecodeOutbound(Obj(x)).Ok? ==> !R.IsVless(R.DecodeOutbound(Obj(x)).value)
    ensures var more := R.FromJson(WithOutbounds(o, before + [Obj(x)] + after), parseIp);
            if R.DecodeOutbound(Obj(x)).Ok? then more == R.FromJson(WithOutbounds(o, before + after), parseIp)
              else more.Err?
  {
    hide R.DecodeOutbound, R.DecodeRoot, R.FromRaw, R.IsVless, WithOutbounds;
    CoreListInserted(o, before, x, after);
    if R.DecodeOutbound(Obj(x)).Ok? {
      var most := R.DecodeRoot(WithOutbounds(o, before + after)).value;
      var n := |before|;
      R.OtherOutboundsAreIgnored(most, most.outbounds[..n], R.DecodeOutbound(Obj(x)).value, most.outbounds[n..], [],
                                 parseIp);
      assert most.(outbounds := most.outbounds[..n] + most.outbounds[n..]) == most;
    }
  }

  lemma NotVless(x: Fields)
    requires R.DecodeOutbound(Obj(x)).Ok?
    requires D.IsString(x, "protocol") && Lower(x["protocol"].s) != "vless"
    ensures !R.IsVless(R.DecodeOutbound(Obj(x)).value)
  {
    DecodedProtocol(Obj(x));
    CaseAgrees(x["protocol"].s, "vless");
    hide R.DecodeOutbound;
  }

  lemma AppParseSkips(o: Fields, before: seq<Json>, x: Fields, after: seq<Json>)
    requires D.IsString(x, "protocol") && Lower(x["protocol"].s) != "vless"
    ensures D.Parse(WithOutbounds(o, before + [Obj(x)] + after)) == D.Parse(WithOutbounds(o, before + after))
  {
    AppSkips(before, x, after);
    hide D.FirstVless, D.ReadVless;
  }

  lemma CoreListInserted(o: Fields, before: seq<Json>, x: Fields, after: seq<Json>)
    requires R.DecodeRoot(WithOutbounds(o, before + after)).Ok?
    ensures var more := R.DecodeRoot(WithOutbounds(o, before + [Obj(x)] + after));
            var most := R.DecodeRoot(WithOutbounds(o, before + after)).value;
            var entry, n := R.DecodeOutbound(Obj(x)), |before|;
            && n <= |most.outbounds|
            && if entry.Err? then more.Err?
               else more == Ok(most.(outbounds := most.outbounds[..n] + [entry.value] + most.outbounds[n..]))
  {
    RootWith(o, before + after);
    RootWith(o, before + [Obj(x)] + after);
    hide R.DecodeOutbound, R.DecodeRoot;
    DecodeListInserted(before, Obj(x), after, R.DecodeOutbound);
    hide R.DecodeList;
  }

  /** Only the list itself depends on the list. */
  lemma RootWith(o: Fields, items: seq<Json>)
    ensures var list := R.DecodeList(items, R.DecodeOutbound);
            var bare := R.DecodeRoot(WithOutbounds(o, []));
            R.DecodeRoot(WithOutbounds(o, items)).Ok? <==> bare.Ok? && list.Ok?
    ensures var list := R.DecodeList(items, R.DecodeOutbound);
            var bare := R.DecodeRoot(WithOutbounds(o, []));
            R.DecodeRoot(WithOutbounds(o, items)).Ok? ==>
              R.DecodeRoot(WithOutbounds(o, items)) == Ok(bare.value.(outbounds := list.value))
  {
    hide R.DecodeOutbound;
  }

  lemma {:induction false} AppSkips(before: seq<Json>, x: Fields, after: seq<Json>)
    requires D.IsString(x, "protocol") && Lower(x["protocol"].s) != "vless"
    ensures D.FirstVless(before + [Obj(x)] + after) == D.FirstVless(before + after)
    decreases |before|
  {
    if before == [] {
      assert before + [Obj(x)] + after == [Obj(x)] + after && before + after == after;
      assert ([Obj(x)] + after)[1..] == after;
    } else {
      assert (before + [Obj(x)] + after)[1..] == before[1..] + [Obj(x)] + after;
      assert (before + after)[1..] == before[1..] + after;
      AppSkips(before[1..], x, after);
    }
  }

  /** A plain direct outbound is such an entry: added to any accepted file, it makes the core refuse the file. */
  lemma DirectOutboundIsRefused(o: Fields, items: seq<Json>, parseIp: IpParser)
    requires R.FromJson(WithOutbounds(o, items), parseIp).Ok?
    ensures var direct := map["tag" := Str("direct"), "protocol" := Str("freedom")];
            var more := WithOutbounds(o, items + [Obj(direct)]);
            R.FromJson(more, parseIp).Err? && D.Parse(more) == D.Parse(WithOutbounds(o, items)) && D.Parse(more).Some?
  {
    var direct := map["tag" := Str("direct"), "protocol" := Str("freedom")];
    assert Lower("freedom")[0] == 'f';
    assert items + [] == items && items + [Obj(direct)] + [] == items + [Obj(direct)];
    assert R.DecodeOutbound(Obj(direct)).Err?;
    hide R.FromJson, D.Parse, R.DecodeOutbound;
    ForeignOutbound(o, items, direct, [], parseIp);
    CoreAcceptsIff(WithOutbounds(o, items), parseIp);
  }

  // ---- Writing the upstream file -------------------------------------------------

  /**
   * Whatever else a file may carry: further fields, object by object (routing, inbounds, encryption and the like), and
   * further users, servers and outbounds behind the first. The three words it is recognised by may have any spelling.
   */
  datatype Extras = Extras(
    root: Fields,
    entry: Fields,
    settings: Fields,
    server: Fields,
    user: Fields,
    stream: Fields,
    grpc: Fields,
    reality: Fields,
    users: seq<Json>,
    servers: seq<Json>,
    outbounds: seq<Json>,
    protocol: string,
    security: string,
    network: string)
  {
    /** The entry is recognised and of the supported kind, whatever the case of the letters. */
    predicate Supported() {
      Spells(security, "reality") && Spells(network, "grpc")
    }

    /** The core looks into everything behind the first, too: it has to decode. */
    predicate Decodable() {
      && R.DecodeList(users, R.DecodeUser).Ok?
      && R.DecodeList(servers, R.DecodeVnext).Ok?
      && R.DecodeList(outbounds, R.DecodeOutbound).Ok?
    }
  }

  function UserEntry(x: Extras, o: Outbound): Json {
    Obj(x.user + map["id" := Str(o.userId), "flow" := Str(o.flow)])
  }

  function ServerEntry(x: Extras, o: Outbound): Json {
    Obj(x.server + map["address" := Str(o.address), "port" := Int(o.port),
                       "users" := Arr([UserEntry(x, o)] + x.users)])
  }

  function RealityEntry(x: Extras, r: Reality): Json {
    Obj(x.reality + map["serverName" := Str(r.serverName), "publicKey" := Str(r.publicKey),
                        "shortId" := Str(r.shortId), "fingerprint" := Str(r.fingerprint)])
  }

  function GrpcEntry(x: Extras, name: string): Json {
    Obj(x.grpc + map["serviceName" := Str(name)])
  }

  function StreamEntry(x: Extras, o: Outbound): Json {
    Obj(x.stream + map["network" := Str(x.network), "security" := Str(x.security),
                       "grpcSettings" := GrpcEntry(x, o.grpcServiceName),
                       "realitySettings" := RealityEntry(x, o.reality)])
  }

  function SettingsEntry(x: Extras, o: Outbound): Json {
    Obj(x.settings + map["vnext" := Arr([ServerEntry(x, o)] + x.servers)])
  }

  /** The vless entry that stands for `o`. */
  function Entry(x: Extras, o: Outbound): Fields {
    x.entry + map["tag" := Str(o.tag), "protocol" := Str(x.protocol),
                  "settings" := SettingsEntry(x, o), "streamSettings" := StreamEntry(x, o)]
  }

  /** The upstream file that stands for `c`. */
  function File(x: Extras, c: D.DartConfig): Json {
    Obj(x.root + map["bridge_rsa_id" := Str(c.bridgeRsaId), "bridge_ed25519_id" := Str(c.bridgeEd25519Id),
                     "doh_server" := Str(c.dohServer),
                     "doh_server_ip" := if c.dohServerIp.Some? then Str(c.dohServerIp.value) else Null,
                     "outbounds" := Arr([Obj(Entry(x, c.outbound))] + x.outbounds)])
  }

  lemma DecodeCons<T>(x: Json, tail: seq<Json>, decode: Json -> Result<T>)
    ensures var r, rest := R.DecodeList([x] + tail, decode), R.DecodeList(tail, decode);
            if decode(x).Ok? && rest.Ok? then r == Ok([decode(x).value] + rest.value) else r.Err?
  {
    assert ([x] + tail)[1..] == tail;
  }

  lemma UserRead(x: Extras, o: Outbound)
    ensures R.DecodeUser(UserEntry(x, o)) == Ok(R.RawUser(o.userId, o.flow))
  {
  }

  lemma ServerRead(x: Extras, o: Outbound)
    ensures var r, users := R.DecodeVnext(ServerEntry(x, o)), R.DecodeList(x.users, R.DecodeUser);
            if 0 <= o.port < 0x1_0000 && users.Ok? then
              r == Ok(R.RawVnext(o.address, o.port, [R.RawUser(o.userId, o.flow)] + users.value))
            else r.Err?
  {
    UserRead(x, o);
    DecodeCons(UserEntry(x, o), x.users, R.DecodeUser);
    hide R.DecodeList, R.DecodeUser, UserEntry;
  }

  lemma KeysRead(x: Extras, o: Outbound)
    ensures R.DecodeReality(RealityEntry(x, o.reality), "serverName", "publicKey", "shortId") == Ok(o.reality)
    ensures R.DecodeGrpc(GrpcEntry(x, o.grpcServiceName)) == Ok(o.grpcServiceName)
  {
  }

  lemma StreamRead(x: Extras, o: Outbound)
    ensures R.DecodeStream(StreamEntry(x, o))
         == Ok(R.RawStream(x.network, Some(o.grpcServiceName), x.security, Some(o.reality)))
  {
    KeysRead(x, o);
    assert RealityEntry(x, o.reality).Obj? && GrpcEntry(x, o.grpcServiceName).Obj?;
    hide R.DecodeReality, R.DecodeGrpc, RealityEntry, GrpcEntry;
    var s := StreamEntry(x, o).fields;
    assert NeedStr(s, "network") == Ok(x.network) && NeedStr(s, "security") == Ok(x.security);
    assert Nullable(s, "grpcSettings") == Some(GrpcEntry(x, o.grpcServiceName));
    assert Nullable(s, "realitySettings") == Some(RealityEntry(x, o.reality));
    hide StreamEntry, NeedStr, Nullable;
  }

  /**
   * The entry is decoded exactly if the port fits and the further users and servers decode. Then it is found by its
   * protocol and read back as the outbound it stands for, exactly if the three words are spelled right.
   */
  lemma EntryRead(x: Extras, o: Outbound)
    ensures R.DecodeOutbound(Obj(Entry(x, o))).Ok?
       <==> (0 <= o.port < 0x1_0000 && R.DecodeList(x.users, R.DecodeUser).Ok?
             && R.DecodeList(x.servers, R.DecodeVnext).Ok?)
    ensures var r := R.DecodeOutbound(Obj(Entry(x, o)));
            r.Ok? ==>
              && (R.IsVless(r.value) <==> Spells(x.protocol, "vless"))
              && if x.Supported() then R.Extract(r.value) == Ok(o) else R.Extract(r.value).Err?
  {
    hide R.DecodeList, R.DecodeOutbound, R.IsVless, R.Extract, Extras.Supported, Entry, Spells;
    EntryDecoded(x, o);
    var r := R.DecodeOutbound(Obj(Entry(x, o)));
    if r.Ok? {
      EntryExtracted(x, o, r.value);
    }
  }

  lemma EntryExtracted(x: Extras, o: Outbound, raw: R.RawOutbound)
    requires raw.tag == o.tag && raw.protocol == x.protocol && raw.vnext != [] && raw.vnext[0].users != []
    requires raw.vnext[0].address == o.address && raw.vnext[0].port == o.port
    requires raw.vnext[0].users[0] == R.RawUser(o.userId, o.flow)
    requires raw.stream == R.RawStream(x.network, Some(o.grpcServiceName), x.security, Some(o.reality))
    ensures R.IsVless(raw) <==> Spells(x.protocol, "vless")
    ensures if x.Supported() then R.Extract(raw) == Ok(o) else R.Extract(raw).Err?
  {
    hide Spells, SameIgnoringCase, Lower;
    SpellingIsWhatMatters(x.protocol, "vless");
    SpellingIsWhatMatters(x.security, "reality");
    SpellingIsWhatMatters(x.network, "grpc");
  }

  lemma EntryDecoded(x: Extras, o: Outbound)
    ensures var users, servers := R.DecodeList(x.users, R.DecodeUser), R.DecodeList(x.servers, R.DecodeVnext);
            var r := R.DecodeOutbound(Obj(Entry(x, o)));
            if 0 <= o.port < 0x1_0000 && users.Ok? && servers.Ok? then
              var first := R.RawVnext(o.address, o.port, [R.RawUser(o.userId, o.flow)] + users.value);
              r == Ok(R.RawOutbound(o.tag, x.protocol, [first] + servers.value,
                                    R.RawStream(x.network, Some(o.grpcServiceName), x.security, Some(o.reality))))
            else r.Err?
  {
    ServerRead(x, o);
    StreamRead(x, o);
    DecodeCons(ServerEntry(x, o), x.servers, R.DecodeVnext);
    hide R.DecodeList, R.DecodeVnext, R.DecodeStream, ServerEntry, StreamEntry;
  }

  lemma FileRead(x: Extras, c: D.DartConfig)
    ensures var r, entry := R.DecodeRoot(File(x, c)), R.DecodeOutbound(Obj(Entry(x, c.outbound)));
            var more := R.DecodeList(x.outbounds, R.DecodeOutbound);
            if entry.Ok? && more.Ok? then
              r == Ok(R.RawRoot(c.bridgeRsaId, c.bridgeEd25519Id, c.dohServer, c.dohServerIp,
                                [entry.value] + more.value))
            else r.Err?
  {
    DecodeCons(Obj(Entry(x, c.outbound)), x.outbounds, R.DecodeOutbound);
    hide R.DecodeList, R.DecodeOutbound, Entry;
  }

  lemma AppFinds(x: Extras, o: Outbound)
    ensures D.FirstVless([Obj(Entry(x, o))] + x.outbounds)
         == if Spells(x.protocol, "vless") then Some(Entry(x, o)) else D.FirstVless(x.outbounds)
  {
    SpellingIsWhatMatters(x.protocol, "vless");
    assert Entry(x, o)["protocol"] == Str(x.protocol);
    assert ([Obj(Entry(x, o))] + x.outbounds)[1..] == x.outbounds;
    hide Entry, Spells, Lower;
  }

  lemma AppReadsStream(x: Extras, o: Outbound)
    ensures var s := StreamEntry(x, o).fields;
            && (D.StreamUsable(s) <==> x.Supported())
            && (D.StreamUsable(s) ==>
                  && D.IsString(s["grpcSettings"].fields, "serviceName")
                  && s["grpcSettings"].fields["serviceName"].s == o.grpcServiceName
                  && D.ReadReality(s["realitySettings"].fields, "serverName", "publicKey",
                                   "shortId") == Some(o.reality))
  {
    StreamRead(x, o);
    SpellingIsWhatMatters(x.security, "reality");
    SpellingIsWhatMatters(x.network, "grpc");
    hide R.DecodeStream, StreamEntry, D.StreamUsable, D.ReadReality, Spells, SameIgnoringCase, Lower;
    StreamAgrees(StreamEntry(x, o));
  }

  lemma AppReadsServer(x: Extras, o: Outbound)
    ensures var v, u := ServerEntry(x, o).fields, UserEntry(x, o).fields;
            && D.IsString(v, "address") && v["address"].s == o.address && D.Get(v, "port") == Int(o.port)
            && D.FirstObj(D.Get(v, "users")) == Some(u)
            && D.IsString(u, "id") && u["id"].s == o.userId && D.OrElse(u, "flow", "") == Some(o.flow)
  {
  }

  lemma EntryFields(x: Extras, o: Outbound)
    ensures var vless := Entry(x, o);
            && D.Get(vless, "streamSettings") == StreamEntry(x, o) && D.Get(vless, "settings") == SettingsEntry(x, o)
            && D.OrElse(vless, "tag", "proxy") == Some(o.tag)
  {
    hide StreamEntry, SettingsEntry;
  }

  lemma SettingsFields(x: Extras, o: Outbound)
    ensures StreamEntry(x, o).Obj? && ServerEntry(x, o).Obj? && UserEntry(x, o).Obj? && SettingsEntry(x, o).Obj?
    ensures D.FirstObj(D.Get(SettingsEntry(x, o).fields, "vnext")) == Some(ServerEntry(x, o).fields)
  {
    assert StreamEntry(x, o).Obj? && ServerEntry(x, o).Obj? && UserEntry(x, o).Obj?;
    hide StreamEntry, ServerEntry, UserEntry;
  }

  /** The app looks at the first of everything only, and at the port only as a 64-bit number. */
  lemma AppReadsEntry(x: Extras, o: Outbound)
    ensures D.ReadVless(Entry(x, o)) == if D.DartInt(o.port) && x.Supported() then Some(o) else None
  {
    hide StreamEntry, ServerEntry, UserEntry, SettingsEntry, Entry, D.FirstObj, D.OrElse, D.StreamUsable,
      D.ReadReality, D.DartInt;
    EntryFields(x, o);
    SettingsFields(x, o);
    AppReadsStream(x, o);
    AppReadsServer(x, o);
  }

  lemma AppReads(x: Extras, c: D.DartConfig)
    ensures D.Parse(File(x, c))
         == if Spells(x.protocol, "vless") then if D.DartInt(c.outbound.port) && x.Supported() then Some(c) else None
            else D.Parse(WithOutbounds(File(x, c).fields, x.outbounds))
  {
    AppFinds(x, c.outbound);
    AppReadsEntry(x, c.outbound);
    hide Entry, D.FirstVless, D.ReadVless, Spells;
  }

  /**
   * Both parsers read a file back as the configuration it stands for, whatever else it carries at any level and
   * whatever the case of the words: the app if and only if the port has 64 bits and transport and security are the
   * supported ones, the core if and only if moreover the port has 16 bits, the address is absent, blank or valid, and
   * what follows the first of each list decodes. An entry under any other protocol counts for neither.
   */
  lemma FileRoundTrip(x: Extras, c: D.DartConfig, parseIp: IpParser)
    ensures Spells(x.protocol, "vless") ==>
              D.Parse(File(x, c)) == if D.DartInt(c.outbound.port) && x.Supported() then Some(c) else None
    ensures Spells(x.protocol, "vless") ==>
              var r, ip := R.FromJson(File(x, c), parseIp), R.DohIp(c.dohServerIp, parseIp);
              if 0 <= c.outbound.port < 0x1_0000 && x.Supported() && ip.Ok? && x.Decodable() then
                r == Ok(R.AppConfig(c.bridgeRsaId, c.bridgeEd25519Id, c.dohServer, ip.value, c.outbound, R.NO_PREFS))
              else r.Err?
    ensures !Spells(x.protocol, "vless") ==>
              var rest := WithOutbounds(File(x, c).fields, x.outbounds);
              && D.Parse(File(x, c)) == D.Parse(rest)
              && (R.FromJson(File(x, c), parseIp).Ok? ==> R.FromJson(File(x, c), parseIp) == R.FromJson(rest, parseIp))
              && (x.outbounds == [] ==> D.Parse(File(x, c)).None? && R.FromJson(File(x, c), parseIp).Err?)
  {
    assert File(x, c).Obj?;
    hide R.FromJson, R.DohIp, R.DecodeList, D.Parse, D.DartInt, Extras.Decodable, Extras.Supported, File, Spells,
      WithOutbounds, Entry;
    AppReads(x, c);
    if Spells(x.protocol, "vless") {
      CoreReadsOwn(x, c, parseIp);
    } else {
      CoreSkipsOther(x, c, parseIp);
      NothingLeft(File(x, c).fields, parseIp);
    }
  }

  lemma CoreReadsOwn(x: Extras, c: D.DartConfig, parseIp: IpParser)
    requires Spells(x.protocol, "vless")
    ensures var r, ip := R.FromJson(File(x, c), parseIp), R.DohIp(c.dohServerIp, parseIp);
            if 0 <= c.outbound.port < 0x1_0000 && x.Supported() && ip.Ok? && x.Decodable() then
              r == Ok(R.AppConfig(c.bridgeRsaId, c.bridgeEd25519Id, c.dohServer, ip.value, c.outbound, R.NO_PREFS))
            else r.Err?
  {
    EntryRead(x, c.outbound);
    FileRead(x, c);
    hide R.DecodeOutbound, R.DecodeRoot, R.DecodeList, R.Extract, R.IsVless, R.DohIp, Entry, File, Spells;
  }

  lemma CoreSkipsOther(x: Extras, c: D.DartConfig, parseIp: IpParser)
    requires !Spells(x.protocol, "vless")
    ensures var r, rest := R.FromJson(File(x, c), parseIp), R.FromJson(WithOutbounds(File(x, c).fields, x.outbounds),
        parseIp);
            && (R.DecodeOutbound(Obj(Entry(x, c.outbound))).Ok? ==> if r.Ok? then r == rest else rest.Err?)
            && (R.DecodeOutbound(Obj(Entry(x, c.outbound))).Err? ==> r.Err?)
  {
    EntryRead(x, c.outbound);
    FileRead(x, c);
    RestRead(x, c);
    hide R.DecodeOutbound, R.DecodeRoot, R.DecodeList, R.Extract, R.IsVless, R.DohIp, Entry, File, WithOutbounds,
      Spells;
    var entry, more := R.DecodeOutbound(Obj(Entry(x, c.outbound))), R.DecodeList(x.outbounds, R.DecodeOutbound);
    if entry.Ok? && more.Ok? {
      assert ([entry.value] + more.value)[1..] == more.value;
    }
  }

  lemma RestRead(x: Extras, c: D.DartConfig)
    ensures var r, more := R.DecodeRoot(WithOutbounds(File(x, c).fields, x.outbounds)), R.DecodeList(x.outbounds,
        R.DecodeOutbound);
            if more.Ok? then
              r == Ok(R.RawRoot(c.bridgeRsaId, c.bridgeEd25519Id, c.dohServer, c.dohServerIp, more.value))
            else r.Err?
  {
    hide R.DecodeList, R.DecodeOutbound, Entry;
  }

  lemma NothingLeft(o: Fields, parseIp: IpParser)
    ensures D.Parse(WithOutbounds(o, [])).None? && R.FromJson(WithOutbounds(o, []), parseIp).Err?
  {
  }
}
