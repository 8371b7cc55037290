/**
 * The app's configuration type (flutter_app/lib/services/config_service.dart):
 * its parser for the upstream file and its flat printer and reader. A thrown
 * exception is `None`.
 */
module DartConfig {
  import opened Util
  import opened Json

  datatype DartConfig = DartConfig(
    bridgeRsaId: string,
    bridgeEd25519Id: string,
    dohServer: string,
    dohServerIp: Option<string>,
    outbound: Outbound)
  {
    /** A Dart `int` has 64 bits. */
    predicate Valid() {
      DartInt(outbound.port)
    }
  }

  predicate DartInt(n: int) {
    -0x8000_0000_0000_0000 <= n < 0x8000_0000_0000_0000
  }

  /** `o[key]`, where a missing key reads as null. */
  function Get(o: Fields, key: string): Json {
    if key in o then o[key] else Null
  }

  predicate IsString(o: Fields, key: string) {
    Get(o, key).Str?
  }

  /** `(o[key] ?? fallback) as String`. */
  function OrElse(o: Fields, key: string, fallback: string): Option<string> {
    match Get(o, key)
    case Null => Some(fallback)
    case Str(s) => Some(s)
    case _ => None
  }

  /**
   * `firstWhere` over the lazily cast list: each element up to the match has to be an object with a
   * string protocol.
   */
  function FirstVless(items: seq<Json>): Option<Fields> {
    if items == [] || !items[0].Obj? || !IsString(items[0].fields, "protocol") then None
    else if Lower(items[0].fields["protocol"].s) == "vless" then Some(items[0].fields)
    else FirstVless(items[1..])
  }

  /** `(j as List).first as Map`. */
  function FirstObj(j: Json): Option<Fields> {
    if j.Arr? && j.items != [] && j.items[0].Obj? then Some(j.items[0].fields) else None
  }

  function ReadReality(o: Fields, serverName: string, publicKey: string, shortId: string): Option<Reality> {
    if IsString(o, serverName) && IsString(o, publicKey) && IsString(o, shortId) && IsString(o, "fingerprint") then
      Some(Reality(o[serverName].s, o[publicKey].s, o[shortId].s, o["fingerprint"].s))
    else None
  }

  predicate StreamUsable(s: Fields) {
    && IsString(s, "security") && Lower(s["security"].s) == "reality"
    && IsString(s, "network") && Lower(s["network"].s) == "grpc"
    && Get(s, "grpcSettings").Obj? && Get(s, "realitySettings").Obj?
  }

  /** The outbound taken from the first vless entry. */
  function ReadVless(vless: Fields): Option<Outbound> {
    var stream, settings := Get(vless, "streamSettings"), Get(vless, "settings");
    if !stream.Obj? || !StreamUsable(stream.fields) || !settings.Obj? then None
    else
      var grpc := stream.fields["grpcSettings"].fields;
      var reality := ReadReality(stream.fields["realitySettings"].fields, "serverName", "publicKey", "shortId");
      match FirstObj(Get(settings.fields, "vnext"))
      case None => None
      case Some(vnext) =>
        match FirstObj(Get(vnext, "users"))
        case None => None
        case Some(user) =>
          var tag, flow, port := OrElse(vless, "tag", "proxy"), OrElse(user, "flow", ""), Get(vnext, "port");
          if tag.Some? && IsString(vnext, "address") && port.Int? && DartInt(port.n) && IsString(user, "id")
             && flow.Some? && IsString(grpc, "serviceName") && reality.Some?
          then Some(Outbound(tag.value, vnext["address"].s, port.n, user["id"].s, flow.value, grpc["serviceName"].s,
                             reality.value))
          else None
  }

  /** `as String?`. */
  predicate IsNullableString(o: Fields, key: string) {
    Get(o, key).Null? || Get(o, key).Str?
  }

  function NullableString(o: Fields, key: string): Option<string>
    requires IsNullableString(o, key)
  {
    if Get(o, key).Null? then None else Some(Get(o, key).s)
  }

  /** The four top-level fields together with an outbound. */
  function WithTop(o: Fields, outbound: Option<Outbound>): Option<DartConfig> {
    if IsString(o, "bridge_rsa_id") && IsString(o, "bridge_ed25519_id") && IsString(o, "doh_server")
       && IsNullableString(o, "doh_server_ip") && outbound.Some?
    then Some(DartConfig(o["bridge_rsa_id"].s, o["bridge_ed25519_id"].s, o["doh_server"].s,
                         NullableString(o, "doh_server_ip"), outbound.value))
    else None
  }

  /** `AppConfig.parse`. */
  function Parse(j: Json): Option<DartConfig> {
    if !j.Obj? || !Get(j.fields, "outbounds").Arr? then None
    else
      match FirstVless(j.fields["outbounds"].items)
      case None => None
      case Some(vless) => WithTop(j.fields, ReadVless(vless))
  }

  // ---- The flat object --------------------------------------------------------

  function RealityToJson(r: Reality): (j: Json)
    ensures j.Obj?
  {
    Obj(map["server_name" := Str(r.serverName), "public_key" := Str(r.publicKey),
            "short_id" := Str(r.shortId), "fingerprint" := Str(r.fingerprint)])
  }

  function OutboundToJson(o: Outbound): Json {
    Obj(map["tag" := Str(o.tag), "address" := Str(o.address), "port" := Int(o.port), "user_id" := Str(o.userId),
            "flow" := Str(o.flow), "grpc_service_name" := Str(o.grpcServiceName),
            "reality" := RealityToJson(o.reality)])
  }

  function TopFields(c: DartConfig): Fields {
    map["bridge_rsa_id" := Str(c.bridgeRsaId), "bridge_ed25519_id" := Str(c.bridgeEd25519Id),
        "doh_server" := Str(c.dohServer),
        "doh_server_ip" := if c.dohServerIp.Some? then Str(c.dohServerIp.value) else Null,
        "outbound" := OutboundToJson(c.outbound)]
  }

  /** `toJson`. */
  function ToJson(c: DartConfig): Json {
    Obj(TopFields(c))
  }

  function ReadFlatOutbound(j: Json): Option<Outbound> {
    if !j.Obj? || !Get(j.fields, "reality").Obj? then None
    else
      var o := j.fields;
      var reality := ReadReality(o["reality"].fields, "server_name", "public_key", "short_id");
      var flow, port := OrElse(o, "flow", ""), Get(o, "port");
      if IsString(o, "tag") && IsString(o, "address") && port.Int? && DartInt(port.n) && IsString(o, "user_id")
         && flow.Some? && IsString(o, "grpc_service_name") && reality.Some?
      then Some(Outbound(o["tag"].s, o["address"].s, port.n, o["user_id"].s, flow.value, o["grpc_service_name"].s,
                         reality.value))
      else None
  }

  /** `AppConfig.fromJson`. */
  function FromJson(j: Json): Option<DartConfig> {
    if !j.Obj? then None else WithTop(j.fields, ReadFlatOutbound(Get(j.fields, "outbound")))
  }

  lemma RealityRoundTrip(r: Reality)
    ensures var j := RealityToJson(r); ReadReality(j.fields, "server_name", "public_key", "short_id") == Some(r)
  {
  }

  lemma OutboundRoundTrip(o: Outbound)
    ensures ReadFlatOutbound(OutboundToJson(o)) == if DartInt(o.port) then Some(o) else None
  {
    hide RealityToJson, ReadReality;
    RealityRoundTrip(o.reality);
  }

  /** Saving a configuration and loading it again gives the same configuration. */
  lemma RoundTrip(c: DartConfig)
    requires c.Valid()
    ensures FromJson(ToJson(c)) == Some(c)
  {
    hide OutboundToJson, ReadFlatOutbound;
    OutboundRoundTrip(c.outbound);
  }

  /** Wherever the app reads a field, null is as good as nothing. */
  lemma NullIsAbsent(o: Fields, key: string, outbound: Option<Outbound>)
    requires key in o && o[key].Null?
    ensures ReadVless(o) == ReadVless(o - {key})
    ensures WithTop(o, outbound) == WithTop(o - {key}, outbound)
    ensures forall k, fallback :: OrElse(o, k, fallback) == OrElse(o - {key}, k, fallback)
  {
    assert forall k :: Get(o, k) == Get(o - {key}, k);
    hide StreamUsable, FirstObj, ReadReality;
  }

  predicate NamesProtocol(j: Json) {
    j.Obj? && IsString(j.fields, "protocol")
  }

  /**
   * What the app's search finds: the first entry whose protocol spells the word, provided that every entry before it is
   * an object that names a protocol; anything else on the way there makes the app give up.
   */
  lemma {:induction false} FindsIff(items: seq<Json>, vless: Fields)
    ensures FirstVless(items) == Some(vless)
       <==> exists k | 0 <= k < |items| ::
              && items[k] == Obj(vless) && NamesProtocol(items[k]) && Spells(vless["protocol"].s, "vless")
              && forall j | 0 <= j < k :: NamesProtocol(items[j]) && !Spells(items[j].fields["protocol"].s, "vless")
    decreases |items|
  {
    if items == [] {
    } else if NamesProtocol(items[0]) {
      SpellingIsWhatMatters(items[0].fields["protocol"].s, "vless");
      var tail := items[1..];
      FindsIff(tail, vless);
      hide Spells, Lower;
      if !Spells(items[0].fields["protocol"].s, "vless") {
        if FirstVless(tail) == Some(vless) {
          var k :| 0 <= k < |tail|
                   && tail[k] == Obj(vless) && NamesProtocol(tail[k]) && Spells(vless["protocol"].s, "vless")
                   && forall j | 0 <= j < k :: NamesProtocol(tail[j]) && !Spells(tail[j].fields["protocol"].s, "vless");
          assert items[k + 1] == tail[k];
          assert forall j | 0 < j < k + 1 :: items[j] == tail[j - 1];
        }
        if k :| 0 <= k < |items|
                && items[k] == Obj(vless) && NamesProtocol(items[k]) && Spells(vless["protocol"].s, "vless")
                && forall j | 0 <= j < k :: NamesProtocol(items[j]) && !Spells(items[j].fields["protocol"].s, "vless")
        {
          assert k > 0;
          assert tail[k - 1] == items[k];
          assert forall j | 0 <= j < k - 1 :: tail[j] == items[j + 1];
        }
      }
    }
  }
}
