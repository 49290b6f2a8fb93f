/** The codec registry (protocol/codec/registry.go): which versions of an api have codecs in both
    directions, and the decoding of a whole response body. */
module Registry {
  import opened Wrappers
  import opened Wire
  import opened Binary
  import opened Responses
  import opened ResponseBodies
  import opened SortedLists

  type ApiKey = Int16

  datatype CodecKey = CodecKey(apiKey: ApiKey, apiVersion: Int16)

  /** A response decoder: one of the two nested ones, or one that reads the fields of some format in
      order, as the flat ones do. */
  datatype Decoder = MetadataDecoder | FetchDecoder | FormatDecoder(format: Format)

  datatype Body = MetadataResponse(metadata: Metadata) | FetchResponse(fetch: Fetch) | PlainResponse(value: Value)

  /** What a body decodes to with a registered decoder. */
  ghost function BodyOf(decoder: Decoder, data: Bytes): Option<Body> {
    match decoder
    case MetadataDecoder =>
      var m := MetadataBody(data);
      if m.None? then None else Some(MetadataResponse(m.value))
    case FetchDecoder =>
      var f := FetchBody(data);
      if f.None? then None else Some(FetchResponse(f.value))
    case FormatDecoder(format) =>
      var v := Parse(format, data, 0);
      if v.None? || v.value.1 != |data| then None else Some(PlainResponse(v.value.0))
  }

  class Registry {
    var requestEncoders: set<CodecKey>
    var responseDecoders: map<CodecKey, Decoder>

    constructor ()
      ensures requestEncoders == {} && responseDecoders == map[]
    {
      requestEncoders, responseDecoders := {}, map[];
    }

    method RegisterRequestEncoder(apiKey: ApiKey, apiVersion: Int16)
      modifies this`requestEncoders
      ensures requestEncoders == old(requestEncoders) + {CodecKey(apiKey, apiVersion)}
    {
      requestEncoders := requestEncoders + {CodecKey(apiKey, apiVersion)};
    }

    /** A decoder replaces an earlier one for the same key. */
    method RegisterResponseDecoder(apiKey: ApiKey, apiVersion: Int16, decoder: Decoder)
      modifies this`responseDecoders
      ensures responseDecoders == old(responseDecoders)[CodecKey(apiKey, apiVersion) := decoder]
    {
      responseDecoders := responseDecoders[CodecKey(apiKey, apiVersion) := decoder];
    }

    predicate Supports(apiKey: ApiKey, apiVersion: Int16)
      reads this
    {
      CodecKey(apiKey, apiVersion) in requestEncoders && CodecKey(apiKey, apiVersion) in responseDecoders
    }

    /** Exactly the versions with codecs in both directions, in ascending order. */
    method SupportedVersions(apiKey: ApiKey) returns (versions: seq<Int16>)
      ensures Ascending(versions) && forall v :: v in versions <==> Supports(apiKey, v)
    {
      var requestVersions: set<Int16> := {};
      var keys := requestEncoders;
      while keys != {}
        invariant keys <= requestEncoders
        invariant forall v :: v in requestVersions <==> CodecKey(apiKey, v) in requestEncoders - keys
        decreases |keys|
      {
        var key :| key in keys;
        if key.apiKey == apiKey {
          requestVersions := requestVersions + {key.apiVersion};
        }
        keys := keys - {key};
      }
      versions := [];
      keys := responseDecoders.Keys;
      while keys != {}
        invariant keys <= responseDecoders.Keys
        invariant Ascending(versions)
        invariant forall v :: v in versions <==> Supports(apiKey, v) && CodecKey(apiKey, v) !in keys
        decreases |keys|
      {
        var key :| key in keys;
        if key.apiKey == apiKey && key.apiVersion in requestVersions {
          assert key == CodecKey(apiKey, key.apiVersion);
          var inserted := Insert(versions, key.apiVersion);
          forall i | 0 <= i < |inserted|
            ensures -0x8000 <= inserted[i] < 0x8000
          {
            assert inserted[i] in inserted;
          }
          versions := inserted;
        }
        keys := keys - {key};
      }
    }

    /** A body is decoded only by a registered decoder, and only as a whole. */
    method DecodeResponseBody(apiKey: ApiKey, apiVersion: Int16, data: Bytes) returns (body: Option<Body>)
      ensures var key := CodecKey(apiKey, apiVersion);
              body == if key in responseDecoders then BodyOf(responseDecoders[key], data) else None
    {
      hide MetadataBody, FetchBody;
      var key := CodecKey(apiKey, apiVersion);
      if key !in responseDecoders {
        return None;
      }
      match responseDecoders[key]
      case MetadataDecoder =>
        var m := DecodeMetadataBody(data);
        body := if m.None? then None else Some(MetadataResponse(m.value));
      case FetchDecoder =>
        var f := DecodeFetchBody(data);
        body := if f.None? then None else Some(FetchResponse(f.value));
      case FormatDecoder(format) =>
        var v := Parse(format, data, 0);
        if v.None? || v.value.1 != |data| {
          return None;  // malformed, or trailing bytes
        }
        body := Some(PlainResponse(v.value.0));
    }
  }

  /** Whatever is registered, no body that is accepted stays accepted when bytes are cut off its end
      or added to it. */
  lemma BodiesArePrefixFree(decoder: Decoder, data: Bytes, rest: Bytes)
    requires rest != []
    ensures BodyOf(decoder, data).None? || BodyOf(decoder, data + rest).None?
  {
    hide MetadataBody, FetchBody, Parse;
    match decoder
    case MetadataDecoder => MetadataPrefixFree(data, rest);
    case FetchDecoder => FetchPrefixFree(data, rest);
    case FormatDecoder(format) =>
      if Parse(format, data, 0).Some? && Parse(format, data + rest, 0).Some? {
        var v, w := Parse(format, data, 0).value, Parse(format, data + rest, 0).value;
        if Whole(format, data, v.0) {
          WholeIsPrefixFree(format, data, rest, v.0, w.0);
        }
      }
  }
}
