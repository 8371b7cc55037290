/**
 * The core's two ways to read a configuration (rust/core/src/config.rs): the
 * upstream file, and the flat object the platform hands over.
 */
module RustConfig {
  import opened Util
  import opened Json

  datatype UserPrefs = UserPrefs(
    exitCountry: Option<string>,
    allowedPackages: Option<seq<string>>,
    disallowedPackages: Option<seq<string>>)

  const NO_PREFS := UserPrefs(None, None, None)

  datatype AppConfig = AppConfig(
    bridgeRsaId: string,
    bridgeEd25519Id: string,
    dohServer: string,
    dohServerIp: Option<IpAddr>,
    outbound: Outbound,
    user: UserPrefs)

  // ---- The upstream file ------------------------------------------------------

  datatype RawUser = RawUser(id: string, flow: string)

  datatype RawVnext = RawVnext(address: string, port: int, users: seq<RawUser>)

  datatype RawStream = RawStream(network: string, grpc: Option<string>, security: string, reality: Option<Reality>)

  datatype RawOutbound = RawOutbound(tag: string, protocol: string, vnext: seq<RawVnext>, stream: RawStream)

  datatype RawRoot = RawRoot(
    bridgeRsaId: string,
    bridgeEd25519Id: string,
    dohServer: string,
    dohServerIp: Option<string>,
    outbounds: seq<RawOutbound>)

  /** A string field with `#[serde(default)]`: absent is empty, null is an error. */
  function DefaultStr(o: Fields, key: string): Result<string> {
    if key in o then AsStr(o[key]) else Ok("")
  }

  /** An `Option<String>`: absent or null is none. */
  function OptionalStr(o: Fields, key: string): Result<Option<string>> {
    if key !in o || o[key].Null? then Ok(None)
    else
      var s :- AsStr(o[key]);
      Ok(Some(s))
  }

  function NeedU16(o: Fields, key: string): Result<int> {
    var j :- Need(o, key);
    if j.Int? && 0 <= j.n < 0x1_0000 then Ok(j.n) else Err(WrongShape)
  }

  /** A list whose every element decodes. */
  function DecodeList<T>(items: seq<Json>, decode: Json -> Result<T>): (r: Result<seq<T>>)
    ensures r.Ok? <==> forall i | 0 <= i < |items| :: decode(items[i]).Ok?
    ensures r.Ok? ==> |r.value| == |items| && forall i | 0 <= i < |items| :: decode(items[i]) == Ok(r.value[i])
  {
    if items == [] then Ok([])
    else
      var head := decode(items[0]);
      var tail := DecodeList(items[1..], decode);
      assert forall i | 1 <= i < |items| :: items[i] == items[1..][i - 1];
      if head.Err? then Err(head.error) else if tail.Err? then Err(tail.error) else Ok([head.value] + tail.value)
  }

  function DecodeUser(j: Json): Result<RawUser> {
    var o :- AsObj(j);
    var id :- NeedStr(o, "id");
    var flow :- DefaultStr(o, "flow");
    Ok(RawUser(id, flow))
  }

  function DecodeVnext(j: Json): Result<RawVnext> {
    var o :- AsObj(j);
    var address :- NeedStr(o, "address");
    var port :- NeedU16(o, "port");
    var list :- Need(o, "users");
    var items :- AsArr(list);
    var users :- DecodeList(items, DecodeUser);
    Ok(RawVnext(address, port, users))
  }

  function DecodeReality(j: Json, serverName: string, publicKey: string, shortId: string): Result<Reality> {
    var o :- AsObj(j);
    var name :- NeedStr(o, serverName);
    var key :- NeedStr(o, publicKey);
    var id :- NeedStr(o, shortId);
    var fingerprint :- NeedStr(o, "fingerprint");
    Ok(Reality(name, key, id, fingerprint))
  }

  function DecodeGrpc(j: Json): Result<string> {
    var o :- AsObj(j);
    NeedStr(o, "serviceName")
  }

  function DecodeStream(j: Json): Result<RawStream> {
    var o :- AsObj(j);
    var network :- NeedStr(o, "network");
    var security :- NeedStr(o, "security");
    var grpc :- match Nullable(o, "grpcSettings")
                case None => Ok(None)
                case Some(g) => (var name :- DecodeGrpc(g); Ok(Some(name)));
    var reality :- match Nullable(o, "realitySettings")
                   case None => Ok(None)
                   case Some(x) => (var r :- DecodeReality(x, "serverName", "publicKey", "shortId"); Ok(Some(r)));
    Ok(RawStream(network, grpc, security, reality))
  }

  function DecodeOutbound(j: Json): Result<RawOutbound> {
    var o :- AsObj(j);
    var tag :- DefaultStr(o, "tag");
    var protocol :- NeedStr(o, "protocol");
    var settings :- Need(o, "settings");
    var inner :- AsObj(settings);
    var list :- Need(inner, "vnext");
    var items :- AsArr(list);
    var vnext :- DecodeList(items, DecodeVnext);
    var stream :- Need(o, "streamSettings");
    var decoded :- DecodeStream(stream);
    Ok(RawOutbound(tag, protocol, vnext, decoded))
  }

  function DecodeRoot(j: Json): Result<RawRoot> {
    var o :- AsObj(j);
    var rsa :- NeedStr(o, "bridge_rsa_id");
    var ed :- NeedStr(o, "bridge_ed25519_id");
    var doh :- NeedStr(o, "doh_server");
    var ip :- OptionalStr(o, "doh_server_ip");
    var list :- Need(o, "outbounds");
    var items :- AsArr(list);
    var outbounds :- DecodeList(items, DecodeOutbound);
    Ok(RawRoot(rsa, ed, doh, ip, outbounds))
  }

  predicate IsVless(o: RawOutbound) {
    SameIgnoringCase(o.protocol, "vless")
  }

  /** `into_iter().find`. */
  function FindVless(outbounds: seq<RawOutbound>): Option<RawOutbound> {
    if outbounds == [] then None
    else if IsVless(outbounds[0]) then Some(outbounds[0])
    else FindVless(outbounds[1..])
  }

  function Extract(o: RawOutbound): Result<Outbound> {
    if !SameIgnoringCase(o.stream.security, "reality") then
      Err(InvalidConfig("only reality streamSettings.security is supported"))
    else if !SameIgnoringCase(o.stream.network, "grpc") then
      Err(InvalidConfig("only grpc streamSettings.network is supported"))
    else if o.stream.grpc.None? then Err(InvalidConfig("missing grpcSettings"))
    else if o.stream.reality.None? then Err(InvalidConfig("missing realitySettings"))
    else if o.vnext == [] then Err(InvalidConfig("empty vnext list"))
    else if o.vnext[0].users == [] then Err(InvalidConfig("empty users list"))
    else
      var v := o.vnext[0];
      Ok(Outbound(o.tag, v.address, v.port, v.users[0].id, v.users[0].flow, o.stream.grpc.value,
                  o.stream.reality.value))
  }

  function DohIp(ip: Option<string>, parseIp: IpParser): Result<Option<IpAddr>> {
    match ip
    case Some(s) =>
      if Blank(s) then Ok(None)
      else if parseIp(s).None? then Err(InvalidConfig("doh_server_ip"))
      else Ok(parseIp(s))
    case None => Ok(None)
  }

  /** The part of `from_json` behind the decoder. */
  function FromRaw(raw: RawRoot, parseIp: IpParser): Result<AppConfig> {
    match FindVless(raw.outbounds)
    case None => Err(InvalidConfig("no vless outbound found"))
    case Some(o) =>
      var outbound :- Extract(o);
      var ip :- DohIp(raw.dohServerIp, parseIp);
      Ok(AppConfig(raw.bridgeRsaId, raw.bridgeEd25519Id, raw.dohServer, ip, outbound, NO_PREFS))
  }

  /** `AppConfig::from_json`. */
  function FromJson(j: Json, parseIp: IpParser): Result<AppConfig> {
    var raw :- DecodeRoot(j);
    FromRaw(raw, parseIp)
  }

  // ---- The flat object --------------------------------------------------------

  function OptionalStrings(o: Fields, key: string): Result<Option<seq<string>>> {
    if key !in o || o[key].Null? then Ok(None)
    else
      var items :- AsArr(o[key]);
      var strings :- DecodeList(items, AsStr);
      Ok(Some(strings))
  }

  function DecodePrefs(o: Fields): Result<UserPrefs> {
    if "user" !in o then Ok(NO_PREFS)
    else
      var u :- AsObj(o["user"]);
      var country :- OptionalStr(u, "exit_country");
      var allowed :- OptionalStrings(u, "allowed_packages");
      var disallowed :- OptionalStrings(u, "disallowed_packages");
      Ok(UserPrefs(country, allowed, disallowed))
  }

  function DecodeFlatOutbound(j: Json): Result<Outbound> {
    var o :- AsObj(j);
    var tag :- NeedStr(o, "tag");
    var address :- NeedStr(o, "address");
    var port :- NeedU16(o, "port");
    var userId :- NeedStr(o, "user_id");
    var flow :- DefaultStr(o, "flow");
    var grpc :- NeedStr(o, "grpc_service_name");
    var inner :- Need(o, "reality");
    var reality :- DecodeReality(inner, "server_name", "public_key", "short_id");
    Ok(Outbound(tag, address, port, userId, flow, grpc, reality))
  }

  function FlatIp(o: Fields, parseIp: IpParser): Result<Option<IpAddr>> {
    var text :- OptionalStr(o, "doh_server_ip");
    match text
    case None => Ok(None)
    case Some(s) => if parseIp(s).Some? then Ok(parseIp(s)) else Err(WrongShape)
  }

  /** The derived decoder of `AppConfig`, as both native entry points use it. */
  function DecodeFlat(j: Json, parseIp: IpParser): Result<AppConfig> {
    var o :- AsObj(j);
    var rsa :- NeedStr(o, "bridge_rsa_id");
    var ed :- NeedStr(o, "bridge_ed25519_id");
    var doh :- NeedStr(o, "doh_server");
    var ip :- FlatIp(o, parseIp);
    var inner :- Need(o, "outbound");
    var outbound :- DecodeFlatOutbound(inner);
    var user :- DecodePrefs(o);
    Ok(AppConfig(rsa, ed, doh, ip, outbound, user))
  }

  // ---- Only the first vless outbound matters ----------------------------------

  /** The list reduced to what the parser looks at. */
  function FirstOnly(outbounds: seq<RawOutbound>): seq<RawOutbound> {
    match FindVless(outbounds)
    case Some(o) => [o]
    case None => []
  }

  lemma {:induction false} FindFirst(outbounds: seq<RawOutbound>)
    ensures FindVless(outbounds).None? <==> forall o | o in outbounds :: !IsVless(o)
    ensures FindVless(outbounds).Some? ==>
              exists k: nat | k < |outbounds| ::
                FindVless(outbounds).value == outbounds[k] && IsVless(outbounds[k])
                && forall j | 0 <= j < k :: !IsVless(outbounds[j])
  {
    if outbounds != [] && !IsVless(outbounds[0]) {
      FindFirst(outbounds[1..]);
      if FindVless(outbounds).Some? {
        var k: nat :| k < |outbounds[1..]| && FindVless(outbounds).value == outbounds[1..][k]
                      && IsVless(outbounds[1..][k]) && forall j | 0 <= j < k :: !IsVless(outbounds[1..][j]);
        forall j | 0 <= j < k + 1
          ensures !IsVless(outbounds[j])
        {
          assert j > 0 ==> outbounds[j] == outbounds[1..][j - 1];
        }
        assert outbounds[k + 1] == outbounds[1..][k];
      }
    }
  }

  /** Two files whose lists reduce to the same outbound parse alike, error or not. */
  lemma Noninterference(raw: RawRoot, outbounds: seq<RawOutbound>, parseIp: IpParser)
    requires FirstOnly(outbounds) == FirstOnly(raw.outbounds)
    ensures FromRaw(raw.(outbounds := outbounds), parseIp) == FromRaw(raw, parseIp)
  {
  }

  lemma {:induction false} FindInserted(before: seq<RawOutbound>, o: RawOutbound, after: seq<RawOutbound>)
    requires !IsVless(o)
    ensures FindVless(before + [o] + after) == FindVless(before + after)
  {
    if before == [] {
      assert ([o] + after)[1..] == after;
      assert before + [o] + after == [o] + after && before + after == after;
    } else {
      assert (before + [o] + after)[1..] == before[1..] + [o] + after;
      assert (before + after)[1..] == before[1..] + after;
      FindInserted(before[1..], o, after);
    }
  }

  lemma {:induction false} FindCut(before: seq<RawOutbound>, vless: RawOutbound, after: seq<RawOutbound>,
                                   after': seq<RawOutbound>)
    requires IsVless(vless)
    ensures FindVless(before + [vless] + after) == FindVless(before + [vless] + after')
  {
    if before == [] {
      assert before + [vless] + after == [vless] + after && before + [vless] + after' == [vless] + after';
    } else {
      assert (before + [vless] + after)[1..] == before[1..] + [vless] + after;
      assert (before + [vless] + after')[1..] == before[1..] + [vless] + after';
      FindCut(before[1..], vless, after, after');
    }
  }

  /**
   * Outbounds of another protocol may come and go anywhere, and whatever follows
   * a vless outbound may be replaced, without changing the result or the error.
   */
  lemma OtherOutboundsAreIgnored(raw: RawRoot, before: seq<RawOutbound>, o: RawOutbound, after: seq<RawOutbound>,
                                 after': seq<RawOutbound>, parseIp: IpParser)
    ensures !IsVless(o) ==>
              FromRaw(raw.(outbounds := before + [o] + after), parseIp)
              == FromRaw(raw.(outbounds := before + after), parseIp)
    ensures IsVless(o) ==>
              FromRaw(raw.(outbounds := before + [o] + after), parseIp)
              == FromRaw(raw.(outbounds := before + [o] + after'), parseIp)
  {
    hide FromRaw, FindVless;
    if IsVless(o) {
      FindCut(before, o, after, after');
      Noninterference(raw.(outbounds := before + [o] + after), before + [o] + after', parseIp);
    } else {
      FindInserted(before, o, after);
      Noninterference(raw.(outbounds := before + after), before + [o] + after, parseIp);
    }
  }

  predicate Usable(o: RawOutbound) {
    && SameIgnoringCase(o.stream.security, "reality") && SameIgnoringCase(o.stream.network, "grpc")
    && o.stream.grpc.Some? && o.stream.reality.Some?
    && o.vnext != [] && o.vnext[0].users != []
  }

  /** Exactly when a decoded file is accepted. */
  lemma AcceptedIff(raw: RawRoot, parseIp: IpParser)
    ensures FromRaw(raw, parseIp).Ok?
       <==> (exists k: nat | k < |raw.outbounds| ::
               IsVless(raw.outbounds[k]) && Usable(raw.outbounds[k])
                 && forall j | 0 <= j < k :: !IsVless(raw.outbounds[j]))
            && (raw.dohServerIp.None? || Blank(raw.dohServerIp.value) || parseIp(raw.dohServerIp.value).Some?)
  {
    FindFirst(raw.outbounds);
  }

  // ---- What decodes ------------------------------------------------------------

  predicate HasStr(o: Fields, key: string) {
    key in o && o[key].Str?
  }

  /** A string that may be left out, but not be null. */
  predicate MayHaveStr(o: Fields, key: string) {
    key in o ==> o[key].Str?
  }

  /** A string that may be left out or be null. */
  predicate MayHaveStrOrNull(o: Fields, key: string) {
    key in o ==> o[key].Str? || o[key].Null?
  }

  predicate HasPort(o: Fields) {
    "port" in o && o["port"].Int? && 0 <= o["port"].n < 0x1_0000
  }

  predicate ShapedUser(j: Json) {
    j.Obj? && HasStr(j.fields, "id") && MayHaveStr(j.fields, "flow")
  }

  predicate ShapedVnext(j: Json) {
    && j.Obj? && HasStr(j.fields, "address") && HasPort(j.fields)
    && "users" in j.fields && j.fields["users"].Arr?
    && forall i | 0 <= i < |j.fields["users"].items| :: ShapedUser(j.fields["users"].items[i])
  }

  predicate ShapedReality(j: Json, serverName: string, publicKey: string, shortId: string) {
    && j.Obj? && HasStr(j.fields, serverName) && HasStr(j.fields, publicKey) && HasStr(j.fields, shortId)
    && HasStr(j.fields, "fingerprint")
  }

  predicate ShapedStream(j: Json) {
    && j.Obj? && HasStr(j.fields, "network") && HasStr(j.fields, "security")
    && ("grpcSettings" in j.fields && !j.fields["grpcSettings"].Null? ==>
          j.fields["grpcSettings"].Obj? && HasStr(j.fields["grpcSettings"].fields, "serviceName"))
    && ("realitySettings" in j.fields && !j.fields["realitySettings"].Null? ==>
          ShapedReality(j.fields["realitySettings"], "serverName", "publicKey", "shortId"))
  }

  predicate ShapedOutbound(j: Json) {
    && j.Obj? && MayHaveStr(j.fields, "tag") && HasStr(j.fields, "protocol")
    && "settings" in j.fields && j.fields["settings"].Obj?
    && "vnext" in j.fields["settings"].fields && j.fields["settings"].fields["vnext"].Arr?
    && (forall i | 0 <= i < |j.fields["settings"].fields["vnext"].items| ::
          ShapedVnext(j.fields["settings"].fields["vnext"].items[i]))
    && "streamSettings" in j.fields && ShapedStream(j.fields["streamSettings"])
  }

  predicate ShapedRoot(j: Json) {
    && j.Obj? && HasStr(j.fields, "bridge_rsa_id") && HasStr(j.fields, "bridge_ed25519_id")
    && HasStr(j.fields, "doh_server") && MayHaveStrOrNull(j.fields, "doh_server_ip")
    && "outbounds" in j.fields && j.fields["outbounds"].Arr?
    && forall i | 0 <= i < |j.fields["outbounds"].items| :: ShapedOutbound(j.fields["outbounds"].items[i])
  }

  lemma UserDecodesIff(j: Json)
    ensures DecodeUser(j).Ok? <==> ShapedUser(j)
  {
  }

  lemma VnextDecodesIff(j: Json)
    ensures DecodeVnext(j).Ok? <==> ShapedVnext(j)
  {
    hide DecodeUser, ShapedUser, DecodeList;
    forall u
      ensures DecodeUser(u).Ok? <==> ShapedUser(u)
    {
      UserDecodesIff(u);
    }
  }

  lemma RealityDecodesIff(j: Json, serverName: string, publicKey: string, shortId: string)
    ensures DecodeReality(j, serverName, publicKey, shortId).Ok? <==> ShapedReality(j, serverName, publicKey, shortId)
  {
  }

  lemma StreamDecodesIff(j: Json)
    ensures DecodeStream(j).Ok? <==> ShapedStream(j)
  {
    hide DecodeReality, ShapedReality;
    if j.Obj? && "realitySettings" in j.fields {
      RealityDecodesIff(j.fields["realitySettings"], "serverName", "publicKey", "shortId");
    }
  }

  /** Which entries of the list the core can decode at all, whatever their protocol. */
  lemma OutboundDecodesIff(j: Json)
    ensures DecodeOutbound(j).Ok? <==> ShapedOutbound(j)
  {
    hide DecodeVnext, ShapedVnext, DecodeStream, ShapedStream, DecodeList;
    forall v
      ensures DecodeVnext(v).Ok? <==> ShapedVnext(v)
    {
      VnextDecodesIff(v);
    }
    if j.Obj? && "streamSettings" in j.fields {
      StreamDecodesIff(j.fields["streamSettings"]);
    }
  }

  /** Which files decode: required, optional and nullable fields, types, ranges, and every element of every list. */
  lemma RootDecodesIff(j: Json)
    ensures DecodeRoot(j).Ok? <==> ShapedRoot(j)
  {
    hide DecodeOutbound, ShapedOutbound, DecodeList;
    forall x
      ensures DecodeOutbound(x).Ok? <==> ShapedOutbound(x)
    {
      OutboundDecodesIff(x);
    }
  }

  predicate ShapedFlatOutbound(j: Json) {
    && j.Obj? && HasStr(j.fields, "tag") && HasStr(j.fields, "address") && HasPort(j.fields)
    && HasStr(j.fields, "user_id") && MayHaveStr(j.fields, "flow") && HasStr(j.fields, "grpc_service_name")
    && "reality" in j.fields && ShapedReality(j.fields["reality"], "server_name", "public_key", "short_id")
  }

  predicate ShapedStrings(o: Fields, key: string) {
    key in o && !o[key].Null? ==> o[key].Arr? && forall i | 0 <= i < |o[key].items| :: o[key].items[i].Str?
  }

  predicate ShapedPrefs(o: Fields) {
    "user" in o ==>
      && o["user"].Obj? && MayHaveStrOrNull(o["user"].fields, "exit_country")
      && ShapedStrings(o["user"].fields, "allowed_packages") && ShapedStrings(o["user"].fields, "disallowed_packages")
  }

  predicate ShapedFlat(j: Json, parseIp: IpParser) {
    && j.Obj? && HasStr(j.fields, "bridge_rsa_id") && HasStr(j.fields, "bridge_ed25519_id")
    && HasStr(j.fields, "doh_server") && MayHaveStrOrNull(j.fields, "doh_server_ip")
    && ("doh_server_ip" in j.fields && j.fields["doh_server_ip"].Str? ==> parseIp(j.fields["doh_server_ip"].s).Some?)
    && "outbound" in j.fields && ShapedFlatOutbound(j.fields["outbound"]) && ShapedPrefs(j.fields)
  }

  lemma FlatOutboundDecodesIff(j: Json)
    ensures DecodeFlatOutbound(j).Ok? <==> ShapedFlatOutbound(j)
  {
    hide DecodeReality, ShapedReality;
    if j.Obj? && "reality" in j.fields {
      RealityDecodesIff(j.fields["reality"], "server_name", "public_key", "short_id");
    }
  }

  lemma PrefsDecodeIff(o: Fields)
    ensures DecodePrefs(o).Ok? <==> ShapedPrefs(o)
  {
    hide DecodeList;
  }

  /** Which objects the engine can be started with. */
  lemma FlatDecodesIff(j: Json, parseIp: IpParser)
    ensures DecodeFlat(j, parseIp).Ok? <==> ShapedFlat(j, parseIp)
  {
    hide DecodeFlatOutbound, ShapedFlatOutbound, DecodePrefs, ShapedPrefs;
    if j.Obj? {
      PrefsDecodeIff(j.fields);
      if "outbound" in j.fields {
        FlatOutboundDecodesIff(j.fields["outbound"]);
      }
    }
  }

  // ---- The user's preferences --------------------------------------------------

  function Strings(list: seq<string>): Json {
    Arr(seq(|list|, i requires 0 <= i < |list| => Str(list[i])))
  }

  /** The preferences as the core's own printer writes them: nothing is null. */
  function PrefsToJson(p: UserPrefs): Json {
    Obj(map["exit_country" := if p.exitCountry.Some? then Str(p.exitCountry.value) else Null,
            "allowed_packages" := if p.allowedPackages.Some? then Strings(p.allowedPackages.value) else Null,
            "disallowed_packages" := if p.disallowedPackages.Some? then Strings(p.disallowedPackages.value) else Null])
  }

  lemma StringsRead(o: Fields, key: string, list: seq<string>)
    requires key in o && o[key] == Strings(list)
    ensures OptionalStrings(o, key) == Ok(Some(list))
  {
    hide DecodeList;
    var items := o[key].items;
    assert forall i | 0 <= i < |items| :: AsStr(items[i]) == Ok(list[i]);
    assert DecodeList(items, AsStr).Ok?;
    assert DecodeList(items, AsStr).value == list;
  }

  /** Preferences come back as they were written; left out, there are none. */
  lemma PrefsRead(o: Fields, p: UserPrefs)
    ensures DecodePrefs(o["user" := PrefsToJson(p)]) == Ok(p)
    ensures "user" !in o ==> DecodePrefs(o) == Ok(NO_PREFS)
  {
    var u := PrefsToJson(p).fields;
    if p.allowedPackages.Some? {
      StringsRead(u, "allowed_packages", p.allowedPackages.value);
    }
    if p.disallowedPackages.Some? {
      StringsRead(u, "disallowed_packages", p.disallowedPackages.value);
    }
    hide Strings, DecodeList;
  }

  // ---- Which error -------------------------------------------------------------

  /** The checks on the selected outbound, in order. */
  function Checks(o: RawOutbound): seq<bool> {
    [SameIgnoringCase(o.stream.security, "reality"), SameIgnoringCase(o.stream.network, "grpc"),
     o.stream.grpc.Some?, o.stream.reality.Some?, o.vnext != [], o.vnext == [] || o.vnext[0].users != []]
  }

  const COMPLAINTS: seq<string> := [
    "only reality streamSettings.security is supported", "only grpc streamSettings.network is supported",
    "missing grpcSettings", "missing realitySettings", "empty vnext list", "empty users list"]

  /** The first check that fails names the error. */
  lemma FirstComplaint(o: RawOutbound, k: nat)
    requires k < 6 && !Checks(o)[k] && forall j | 0 <= j < k :: Checks(o)[j]
    ensures Extract(o) == Err(InvalidConfig(COMPLAINTS[k]))
  {
    hide SameIgnoringCase;
    var c := Checks(o);
    assert k > 0 ==> c[0];
    assert k > 1 ==> c[1];
    assert k > 2 ==> c[2];
    assert k > 3 ==> c[3];
    assert k > 4 ==> c[4];
  }

  lemma DecodeListError<T>(items: seq<Json>, decode: Json -> Result<T>)
    requires forall j :: decode(j).Err? ==> decode(j).error == WrongShape
    ensures DecodeList(items, decode).Err? ==> DecodeList(items, decode).error == WrongShape
  {
  }

  lemma VnextError(j: Json)
    ensures DecodeVnext(j).Err? ==> DecodeVnext(j).error == WrongShape
  {
    hide DecodeList;
    if j.Obj? && "users" in j.fields && j.fields["users"].Arr? {
      DecodeListError(j.fields["users"].items, DecodeUser);
    }
  }

  lemma OutboundError(j: Json)
    ensures DecodeOutbound(j).Err? ==> DecodeOutbound(j).error == WrongShape
  {
    hide DecodeList, DecodeVnext;
    if j.Obj? && "settings" in j.fields && j.fields["settings"].Obj? && "vnext" in j.fields["settings"].fields
       && j.fields["settings"].fields["vnext"].Arr? {
      forall v
        ensures DecodeVnext(v).Err? ==> DecodeVnext(v).error == WrongShape
      {
        VnextError(v);
      }
      DecodeListError(j.fields["settings"].fields["vnext"].items, DecodeVnext);
    }
    if j.Obj? && "streamSettings" in j.fields {
      StreamError(j.fields["streamSettings"]);
    }
    hide DecodeStream;
  }

  lemma StreamError(j: Json)
    ensures DecodeStream(j).Err? ==> DecodeStream(j).error == WrongShape
  {
  }

  lemma RootError(j: Json)
    ensures DecodeRoot(j).Err? ==> DecodeRoot(j).error == WrongShape
  {
    hide DecodeList, DecodeOutbound;
    if j.Obj? && "outbounds" in j.fields && j.fields["outbounds"].Arr? {
      forall x
        ensures DecodeOutbound(x).Err? ==> DecodeOutbound(x).error == WrongShape
      {
        OutboundError(x);
      }
      DecodeListError(j.fields["outbounds"].items, DecodeOutbound);
    }
  }

  /** The shape comes first, then the search, then the outbound, and the address last. */
  lemma ErrorsInOrder(j: Json, parseIp: IpParser)
    ensures !ShapedRoot(j) ==> FromJson(j, parseIp) == Err(WrongShape)
    ensures ShapedRoot(j) ==>
              DecodeRoot(j).Ok? &&
              var raw, r := DecodeRoot(j).value, FromJson(j, parseIp);
              match FindVless(raw.outbounds)
              case None => r == Err(InvalidConfig("no vless outbound found"))
              case Some(o) =>
                if Extract(o).Err? then r.Err? && r.error == Extract(o).error
                else if raw.dohServerIp.Some? && !Blank(raw.dohServerIp.value)
                  && parseIp(raw.dohServerIp.value).None? then
                  r == Err(InvalidConfig("doh_server_ip"))
                else r.Ok?
  {
    RootDecodesIff(j);
    RootError(j);
    hide DecodeRoot, ShapedRoot, FindVless, Extract, Blank;
  }
}
