/** The finance service's OpenTelemetry configuration helpers: the
    `key=value,key=value` lists read from the environment, the exporter
    headers, the resource attributes with their fallbacks, the resource
    detector selection and the condition for building a trace exporter. */
module Instrumentation {
  import opened Wrappers
  import Seqs
  import Text

  /** Assigning to this key of a plain object changes its prototype instead of
      adding an entry, and a string prototype is ignored. */
  const PROTO_KEY: string := "__proto__"

  /** Starts and ends with a non-space character, as `trim` leaves a string. */
  predicate Trimmed(s: string)
  {
    |s| > 0 ==> !Text.IsSpace(s[0]) && !Text.IsSpace(s[|s| - 1])
  }

  function NonEmpty(s: string): bool
  {
    s != ""
  }

  /** `parts.map(s => s.trim())`. */
  function TrimAll(parts: seq<string>): (r: seq<string>)
    ensures |r| == |parts|
    ensures forall i :: 0 <= i < |parts| ==> r[i] == Text.Trim(parts[i])
  {
    if |parts| == 0 then [] else [Text.Trim(parts[0])] + TrimAll(parts[1..])
  }

  /** `raw.split(',').map(s => s.trim()).filter(Boolean)`. */
  function Segments(raw: string): seq<string>
  {
    Seqs.Filter(TrimAll(Text.Split(raw, ',')), NonEmpty)
  }

  /** Every segment is non-empty and trimmed. */
  lemma SegmentsTrimmed(raw: string)
    ensures forall i :: 0 <= i < |Segments(raw)| ==> Segments(raw)[i] != "" && Trimmed(Segments(raw)[i])
  {
    var trimmed := TrimAll(Text.Split(raw, ','));
    var segs := Segments(raw);
    forall i | 0 <= i < |segs| ensures segs[i] != "" && Trimmed(segs[i]) {
      assert NonEmpty(segs[i]);
      assert segs[i] in trimmed;
      var j :| 0 <= j < |trimmed| && trimmed[j] == segs[i];
      assert Trimmed(Text.Trim(Text.Split(raw, ',')[j]));
    }
  }

  /** The entry a segment contributes: with a non-empty text before its
      first '=', the trimmed key and the trimmed rest, inner '=' included;
      nothing for a segment without '=', one starting with '=', or the key
      `__proto__`. */
  function SegmentPair(segment: string): (r: Option<(string, string)>)
    ensures r.Some? ==> r.value.0 != PROTO_KEY && Trimmed(r.value.0) && Trimmed(r.value.1)
  {
    var parts := Text.Split(segment, '=');
    if parts[0] == "" || |parts| == 1 then None
    else
      var key := Text.Trim(parts[0]);
      if key == PROTO_KEY then None else Some((key, Text.Trim(Text.Join(parts[1..], '='))))
  }

  /** One step of the `reduce`: the segment's entry, if any, is written into
      the accumulator. */
  function ApplySegment(acc: map<string, string>, segment: string): map<string, string>
  {
    match SegmentPair(segment)
    case None => acc
    case Some((key, value)) => acc[key := value]
  }

  /** The `reduce` over the segments, left to right from the empty object. */
  function Fold(segs: seq<string>): map<string, string>
  {
    if |segs| == 0 then map[] else ApplySegment(Fold(segs[..|segs| - 1]), segs[|segs| - 1])
  }

  /** `parseKeyValuePairs`: null, undefined and '' give the empty object. */
  function ParsePairs(raw: Option<string>): map<string, string>
  {
    if !Truthy(raw) then map[] else Fold(Segments(raw.value))
  }

  /** `parseKeyValuePairs`. */
  method ParseKeyValuePairs(raw: Option<string>) returns (pairs: map<string, string>)
    ensures pairs == ParsePairs(raw)
  {
    if raw.None? || raw.value == "" {
      return map[];
    }
    pairs := ReduceSegments(Segments(raw.value));
  }

  /** The `reduce` of `parseKeyValuePairs`: the callback is applied to the
      accumulator one segment at a time. */
  method ReduceSegments(segs: seq<string>) returns (pairs: map<string, string>)
    ensures pairs == Fold(segs)
  {
    pairs := map[];
    var i := 0;
    while i < |segs|
      invariant 0 <= i <= |segs|
      invariant pairs == Fold(segs[..i])
    {
      FoldStep(segs, i);
      pairs := ApplySegment(pairs, segs[i]);
      i := i + 1;
    }
    assert segs[..i] == segs;
  }

  lemma FoldStep(segs: seq<string>, i: nat)
    requires i < |segs|
    ensures Fold(segs[..i + 1]) == ApplySegment(Fold(segs[..i]), segs[i])
  {
    assert segs[..i + 1][..i] == segs[..i];
  }

  /** No key is `__proto__`, and keys and values are trimmed. */
  predicate EntriesTrimmed(m: map<string, string>)
  {
    forall k :: k in m ==> k != PROTO_KEY && Trimmed(k) && Trimmed(m[k])
  }

  lemma ApplySegmentTrimmed(acc: map<string, string>, segment: string)
    requires EntriesTrimmed(acc)
    ensures EntriesTrimmed(ApplySegment(acc, segment))
  {
  }

  /** Every parsed key and value is trimmed, and no key is `__proto__`. */
  lemma {:induction false} FoldEntries(segs: seq<string>)
    ensures EntriesTrimmed(Fold(segs))
  {
    if |segs| > 0 {
      FoldEntries(segs[..|segs| - 1]);
      ApplySegmentTrimmed(Fold(segs[..|segs| - 1]), segs[|segs| - 1]);
    }
  }

  /** A segment `k=v` with a non-empty `k` free of '=' sets `trim(k)` to
      `trim(v)`, whatever '=' `v` holds. */
  lemma SegmentEntry(acc: map<string, string>, k: string, v: string)
    requires k != "" && '=' !in k && Text.Trim(k) != PROTO_KEY
    ensures ApplySegment(acc, k + "=" + v) == acc[Text.Trim(k) := Text.Trim(v)]
  {
    Text.SplitAtFirst(k, v, '=');
    assert k + "=" + v == k + ['='] + v;
  }

  /** A segment without '=' and one starting with '=' are skipped. */
  lemma SegmentSkipped(acc: map<string, string>, segment: string)
    requires '=' !in segment || (|segment| > 0 && segment[0] == '=')
    ensures ApplySegment(acc, segment) == acc
  {
    if '=' in segment {
      Text.SplitAtFirst("", segment[1..], '=');
      assert "" + ['='] + segment[1..] == segment;
    } else {
      Text.SplitWithoutSeparator(segment, '=');
    }
  }

  /** Folding one more segment applies it to the fold of the others. */
  lemma {:induction false} FoldSnoc(segs: seq<string>, segment: string)
    ensures Fold(segs + [segment]) == ApplySegment(Fold(segs), segment)
  {
    var all := segs + [segment];
    assert all[..|all| - 1] == segs;
  }

  /** Folding one more segment `k=v` sets `trim(k)` to `trim(v)`. */
  lemma {:induction false} FoldSnocEntry(segs: seq<string>, k: string, v: string)
    requires k != "" && '=' !in k && Text.Trim(k) != PROTO_KEY
    ensures Fold(segs + [k + "=" + v]) == Fold(segs)[Text.Trim(k) := Text.Trim(v)]
  {
    FoldSnoc(segs, k + "=" + v);
    SegmentEntry(Fold(segs), k, v);
  }

  /** A second write to a key replaces the first. */
  lemma Overwrite(m: map<string, string>, key: string, a: string, b: string)
    ensures m[key := a][key := b] == m[key := b]
  {
  }

  /** Of two segments for the same key, the later one wins. */
  lemma {:induction false} LaterDuplicateWins(prefix: seq<string>, k: string, v1: string, v2: string)
    requires k != "" && '=' !in k && Text.Trim(k) != PROTO_KEY
    ensures Fold(prefix + [k + "=" + v1, k + "=" + v2]) == Fold(prefix)[Text.Trim(k) := Text.Trim(v2)]
  {
    var first, second := k + "=" + v1, k + "=" + v2;
    var once := prefix + [first];
    var key := Text.Trim(k);
    calc {
      Fold(prefix + [first, second]);
      { assert prefix + [first, second] == once + [second]; }
      Fold(once + [second]);
      { FoldSnocEntry(once, k, v2); }
      Fold(once)[key := Text.Trim(v2)];
      { FoldSnocEntry(prefix, k, v1); }
      Fold(prefix)[key := Text.Trim(v1)][key := Text.Trim(v2)];
      { Overwrite(Fold(prefix), key, Text.Trim(v1), Text.Trim(v2)); }
      Fold(prefix)[key := Text.Trim(v2)];
    }
  }

  /** `buildOtlpHeaders`: the parsed header list when it has an entry, else an
      Authorization header from `authHeader` when that is set, else none. */
  function BuildOtlpHeaders(headersEnv: Option<string>, authHeader: Option<string>): (r: Option<map<string, string>>)
    ensures |ParsePairs(headersEnv)| > 0 ==> r == Some(ParsePairs(headersEnv))
    ensures |ParsePairs(headersEnv)| == 0 && Truthy(authHeader) ==> r == Some(map["Authorization" := authHeader.value])
    ensures r.None? <==> |ParsePairs(headersEnv)| == 0 && !Truthy(authHeader)
  {
    var parsed := ParsePairs(headersEnv);
    if |parsed| > 0 then Some(parsed)
    else if Truthy(authHeader) then Some(map["Authorization" := authHeader.value])
    else None
  }

  const SERVICE_NAME: string := "service.name"
  const SERVICE_NAMESPACE: string := "service.namespace"
  const DEPLOYMENT_ENVIRONMENT: string := "deployment.environment"

  /** The environment variables `resolveResourceAttributes` reads. */
  datatype ResourceEnv = ResourceEnv(
    resourceAttributes: Option<string>,   // OTEL_RESOURCE_ATTRIBUTES
    serviceName: Option<string>,          // OTEL_SERVICE_NAME
    serviceNamespace: Option<string>,     // OTEL_SERVICE_NAMESPACE
    deploymentEnvironment: Option<string>, // OTEL_DEPLOYMENT_ENVIRONMENT
    nodeEnv: Option<string>)              // NODE_ENV

  /** `attrs[key]`, undefined when absent. */
  function Lookup(attrs: map<string, string>, key: string): Option<string>
  {
    if key in attrs then Some(attrs[key]) else None
  }

  /** `resolveResourceAttributes`: each of the three service attributes comes
      from the parsed list first, then its own variable, then a default (the
      deployment environment tries NODE_ENV before the default); an empty
      value counts as unset. Every other parsed attribute is kept as is. */
  function ResolveResourceAttributes(env: ResourceEnv): (r: map<string, string>)
    ensures r.Keys == ParsePairs(env.resourceAttributes).Keys + {SERVICE_NAME, SERVICE_NAMESPACE, DEPLOYMENT_ENVIRONMENT}
    ensures forall k :: (k in ParsePairs(env.resourceAttributes) && k !in {SERVICE_NAME, SERVICE_NAMESPACE, DEPLOYMENT_ENVIRONMENT}
      ==> r[k] == ParsePairs(env.resourceAttributes)[k])
    ensures r[SERVICE_NAME] == OrElse(Lookup(ParsePairs(env.resourceAttributes), SERVICE_NAME),
                                      OrElse(env.serviceName, "puente-finance-service"))
    ensures r[SERVICE_NAMESPACE] == OrElse(Lookup(ParsePairs(env.resourceAttributes), SERVICE_NAMESPACE),
                                           OrElse(env.serviceNamespace, "my-application-group"))
    ensures r[DEPLOYMENT_ENVIRONMENT] == OrElse(Lookup(ParsePairs(env.resourceAttributes), DEPLOYMENT_ENVIRONMENT),
                                                OrElse(env.deploymentEnvironment, OrElse(env.nodeEnv, "development")))
  {
    var attrs := ParsePairs(env.resourceAttributes);
    attrs[SERVICE_NAME := OrElse(Lookup(attrs, SERVICE_NAME), OrElse(env.serviceName, "puente-finance-service"))]
         [SERVICE_NAMESPACE := OrElse(Lookup(attrs, SERVICE_NAMESPACE), OrElse(env.serviceNamespace, "my-application-group"))]
         [DEPLOYMENT_ENVIRONMENT := OrElse(Lookup(attrs, DEPLOYMENT_ENVIRONMENT),
                                           OrElse(env.deploymentEnvironment, OrElse(env.nodeEnv, "development")))]
  }

  /** None of the three attributes is ever empty, whatever the environment. */
  lemma ResourceAttributesNonEmpty(env: ResourceEnv)
    ensures ResolveResourceAttributes(env)[SERVICE_NAME] != ""
    ensures ResolveResourceAttributes(env)[SERVICE_NAMESPACE] != ""
    ensures ResolveResourceAttributes(env)[DEPLOYMENT_ENVIRONMENT] != ""
  {
  }

  /** The three resource detectors the service can be configured with. */
  datatype Detector = EnvDetector | HostDetector | OsDetector

  /** `detectorsMap[name]` for one of its own keys. */
  function DetectorNamed(name: string): Option<Detector>
  {
    if name == "env" then Some(EnvDetector)
    else if name == "host" then Some(HostDetector)
    else if name == "os" then Some(OsDetector)
    else None
  }

  /** The detectors named in a comma-separated list, in order, unknown names dropped. */
  function KnownDetectors(names: seq<string>): (r: seq<Detector>)
    ensures |r| <= |names|
    ensures |r| == 0 <==> forall i :: 0 <= i < |names| ==> DetectorNamed(Text.Trim(names[i])).None?
  {
    if |names| == 0 then []
    else
      var rest := KnownDetectors(names[1..]);
      match DetectorNamed(Text.Trim(names[0]))
      case Some(d) => [d] + rest
      case None => rest
  }

  /** The lookup `detectorsMap[name.trim()]` for one listed name. */
  function DetectorOf(name: string): Option<Detector>
  {
    DetectorNamed(Text.Trim(name))
  }

  lemma {:induction false} KnownDetectorsFilterMap(names: seq<string>)
    ensures KnownDetectors(names) == Seqs.FilterMap(names, DetectorOf)
  {
    if |names| > 0 {
      KnownDetectorsFilterMap(names[1..]);
    }
  }

  /** A detector is kept exactly when some name in the list, trimmed, is its name. */
  lemma KnownDetectorsMembers(names: seq<string>, d: Detector)
    ensures d in KnownDetectors(names) <==> exists i :: 0 <= i < |names| && DetectorNamed(Text.Trim(names[i])) == Some(d)
  {
    KnownDetectorsFilterMap(names);
    Seqs.FilterMapMembers(names, DetectorOf, d);
    assert forall i :: 0 <= i < |names| ==> DetectorOf(names[i]) == DetectorNamed(Text.Trim(names[i]));
  }

  /** `(OTEL_NODE_RESOURCE_DETECTORS || '').split(',')`. */
  function DetectorNames(detectorsEnv: Option<string>): seq<string>
  {
    Text.Split(OrElse(detectorsEnv, ""), ',')
  }

  /** `resolveResourceDetectors` as intended: only env, host and os are kept,
      and no match at all gives undefined. */
  function ResolveResourceDetectors(detectorsEnv: Option<string>): (r: Option<seq<Detector>>)
    ensures r.Some? ==> r.value == KnownDetectors(DetectorNames(detectorsEnv)) && |r.value| > 0
    ensures r.None? <==> forall i :: 0 <= i < |DetectorNames(detectorsEnv)| ==>
      DetectorNamed(Text.Trim(DetectorNames(detectorsEnv)[i])).None?
  {
    var names := DetectorNames(detectorsEnv);
    var found := KnownDetectors(names);
    if |found| > 0 then Some(found) else None
  }

  /** What looking a name up in the object literal `{ env, host, os }` yields:
      one of its own keys, or a member every object inherits, which is just
      as truthy. */
  datatype LookupHit = Own(detector: Detector) | Inherited(name: string)

  /** The names of the members of `Object.prototype`, all of which a plain
      object literal answers for. */
  const OBJECT_PROTOTYPE_MEMBERS: seq<string> := [
    "constructor", "hasOwnProperty", "isPrototypeOf", "propertyIsEnumerable",
    "toString", "toLocaleString", "valueOf", "__proto__",
    "__defineGetter__", "__defineSetter__", "__lookupGetter__", "__lookupSetter__"
  ]

  function LiteralLookup(name: string): Option<LookupHit>
  {
    match DetectorNamed(name)
    case Some(d) => Some(Own(d))
    case None => if name in OBJECT_PROTOTYPE_MEMBERS then Some(Inherited(name)) else None
  }

  /** `.map(name => detectorsMap[name.trim()]).filter(Boolean)` as written. */
  function LiteralHits(names: seq<string>): (r: seq<LookupHit>)
    ensures |r| <= |names|
  {
    if |names| == 0 then []
    else
      var rest := LiteralHits(names[1..]);
      match LiteralLookup(Text.Trim(names[0]))
      case Some(h) => [h] + rest
      case None => rest
  }

  /** `resolveResourceDetectors` as written. */
  function ResolveResourceDetectorsAsWritten(detectorsEnv: Option<string>): (r: Option<seq<LookupHit>>)
    ensures r.Some? ==> |r.value| > 0
  {
    var found := LiteralHits(DetectorNames(detectorsEnv));
    if |found| > 0 then Some(found) else None
  }

  /** As written, a member name every object inherits, such as `toString`,
      is taken for a detector and handed on with the real ones; the intended
      selection ignores it. */
  lemma InheritedNamePassesAsWritten(name: string)
    requires name in OBJECT_PROTOTYPE_MEMBERS && ',' !in name && Trimmed(name)
    ensures ResolveResourceDetectorsAsWritten(Some(name)) == Some([Inherited(name)])
    ensures ResolveResourceDetectors(Some(name)) == None
  {
    SingleName(name);
    PrototypeMemberLength(name);
    SingleLookup(name);
  }

  /** Every inherited member name is longer than any detector name. */
  lemma PrototypeMemberLength(name: string)
    requires name in OBJECT_PROTOTYPE_MEMBERS
    ensures |name| >= 7 && DetectorNamed(name).None?
  {
    var i :| 0 <= i < |OBJECT_PROTOTYPE_MEMBERS| && OBJECT_PROTOTYPE_MEMBERS[i] == name;
  }

  /** A trimmed name without a comma is a list of that one name. */
  lemma SingleName(name: string)
    requires ',' !in name && Trimmed(name)
    ensures DetectorNames(Some(name)) == [name]
    ensures Text.Trim(name) == name
  {
    Text.SplitWithoutSeparator(name, ',');
    Text.TrimOfTrimmed(name);
  }

  /** The list of one name that trims to itself is looked up as that name. */
  lemma SingleLookup(name: string)
    requires Text.Trim(name) == name
    ensures LiteralHits([name]) == match LiteralLookup(name) case Some(h) => [h] case None => []
    ensures KnownDetectors([name]) == match DetectorNamed(name) case Some(d) => [d] case None => []
  {
    assert [name][1..] == [];
  }

  /** `OTEL_NODE_RESOURCE_DETECTORS=toString` is such a name. */
  lemma ToStringIsInheritedName()
    ensures "toString" in OBJECT_PROTOTYPE_MEMBERS && ',' !in "toString" && Trimmed("toString")
  {
    var name := "toString";
    assert OBJECT_PROTOTYPE_MEMBERS[4] == name;
    forall i | 0 <= i < |name| ensures name[i] != ',' { }
  }

  /** The lookup hits of a list of the service's own detectors. */
  function OwnHits(ds: seq<Detector>): (r: seq<LookupHit>)
    ensures |r| == |ds| && forall i :: 0 <= i < |ds| ==> r[i] == Own(ds[i])
  {
    if |ds| == 0 then [] else [Own(ds[0])] + OwnHits(ds[1..])
  }

  /** Where no inherited name is requested, the two agree. */
  lemma {:induction false} AsWrittenAgreesOnOwnNames(names: seq<string>)
    requires forall i :: 0 <= i < |names| ==> Text.Trim(names[i]) !in OBJECT_PROTOTYPE_MEMBERS
    ensures LiteralHits(names) == OwnHits(KnownDetectors(names))
  {
    if |names| > 0 {
      AsWrittenAgreesOnOwnNames(names[1..]);
    }
  }

  /** The condition of `buildTraceExporter`: the exporter name, 'otlp' when
      unset or empty, must lower-case to 'otlp', and an endpoint must be set. */
  function ShouldBuildTraceExporter(tracesExporter: Option<string>, endpoint: Option<string>): (r: bool)
    ensures r ==> Truthy(endpoint)
    ensures !Truthy(tracesExporter) ==> (r <==> Truthy(endpoint))
    ensures Truthy(tracesExporter) ==> (r <==> Text.ToLower(tracesExporter.value) == "otlp" && Truthy(endpoint))
  {
    Text.ToLower(OrElse(tracesExporter, "otlp")) == "otlp" && Truthy(endpoint)
  }

  /** The exporter name is compared case-insensitively, and any other exporter
      turns the trace exporter off. */
  lemma TraceExporterExamples(endpoint: string)
    requires endpoint != ""
    ensures ShouldBuildTraceExporter(Some("OTLP"), Some(endpoint))
    ensures !ShouldBuildTraceExporter(Some("console"), Some(endpoint))
    ensures !ShouldBuildTraceExporter(None, None)
  {
    assert Text.ToLower("OTLP") == "otlp" by {
      var r := Text.ToLower("OTLP");
      assert r[0] == 'o' && r[1] == 't' && r[2] == 'l' && r[3] == 'p';
    }
    assert Text.ToLower("console") != "otlp" by {
      assert |Text.ToLower("console")| == 7;
    }
  }
}
