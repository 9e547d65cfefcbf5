/** Stamping an image with its scan results, and the check whether a scan is
    needed. Maps are read the Go way: a nil map is None and reads as empty. */
module Annotations {

  type Attrs = map<string, string>

  datatype Option<T> = None | Some(value: T)

  datatype ImageInfo = ImageInfo(labels: Option<Attrs>, annotations: Option<Attrs>)

  datatype Annotator = Annotator(scannerVersion: string, hubServer: string)

  const VERSION_LABEL := "blackducksoftware.com/hub-scanner-version"
  const HUB_LABEL := "blackducksoftware.com/attestation-hub-server"
  const SCAN_ID := "blackducksoftware.com/scan-id"
  const PROJECT_URL := "blackducksoftware.com/project-endpoint"
  const VULNERABILITY := "quality.images.openshift.io/vulnerability.blackduck"
  const POLICY := "quality.images.openshift.io/policy.blackduck"
  const LABEL_PREFIX := "com.blackducksoftware.image."

  function Entries(m: Option<Attrs>): Attrs {
    if m.None? then map[] else m.value
  }

  /** The loops below visit a map's entries in any order. */
  method Overwrite(base: Attrs, added: Attrs) returns (merged: Attrs)
    ensures merged == base + added
  {
    merged := base;
    var todo := added.Keys;
    while todo != {}
      invariant todo <= added.Keys
      invariant merged.Keys == base.Keys + (added.Keys - todo)
      invariant forall k | k in merged :: merged[k] == if k in added && k !in todo then added[k] else base[k]
      decreases |todo|
    {
      var k :| k in todo;
      todo := todo - {k};
      merged := merged[k := added[k]];
    }
  }

  method MapMerge(base: Option<Attrs>, added: Attrs) returns (merged: Attrs)
    ensures merged == Entries(base) + added
  {
    merged := map[];
    if base.Some? {
      merged := Overwrite(merged, base.value);
    }
    merged := Overwrite(merged, added);
  }

  function Counted(n: int, shown: int -> string): (string, string) {
    if n != 0 then (shown(n), "true") else ("None", "false")
  }

  function NewLabels(violations: int, vulnerabilities: int, shown: int -> string): Attrs {
    map[LABEL_PREFIX + "policy-violations" := Counted(violations, shown).0,
        LABEL_PREFIX + "has-policy-violations" := Counted(violations, shown).1,
        LABEL_PREFIX + "vulnerabilities" := Counted(vulnerabilities, shown).0,
        LABEL_PREFIX + "has-vulnerabilities" := Counted(vulnerabilities, shown).1]
  }

  function NewAnnotations(a: Annotator, url: string, scanId: string): Attrs {
    var required := map[VERSION_LABEL := a.scannerVersion, HUB_LABEL := a.hubServer, PROJECT_URL := url];
    if scanId == "" then required else required[SCAN_ID := scanId]
  }

  /** One of the two OpenShift records of a stamp. */
  datatype Record = Record(name: string, description: string, reference: string, compliant: bool, severity: string, score: string)

  function VulnerabilityRecord(hasVulns: bool, uiUrl: string, count: string): Record {
    Record("blackducksoftware", "Vulnerability Info", uiUrl, !hasVulns, "high", count)
  }

  function PolicyRecord(hasViolations: bool, uiUrl: string, count: string): Record {
    Record("blackducksoftware", "Policy Info", uiUrl, !hasViolations, "important", count)
  }

  /** The results of a scan. */
  datatype Results = Results(violations: int, vulnerabilities: int, url: string, scanId: string, uiUrl: string)

  /** How a number is printed, and a record with the time of day. */
  datatype Printer = Printer(number: int -> string, record: Record -> string)

  function Stamped(a: Annotator, info: ImageInfo, r: Results, p: Printer): ImageInfo {
    ImageInfo(
      Some(Entries(info.labels) + NewLabels(r.violations, r.vulnerabilities, p.number)),
      Some((Entries(info.annotations) + NewAnnotations(a, r.url, r.scanId))
             [VULNERABILITY := p.record(VulnerabilityRecord(r.vulnerabilities != 0, r.uiUrl, Counted(r.vulnerabilities, p.number).0))]
             [POLICY := p.record(PolicyRecord(r.violations != 0, r.uiUrl, Counted(r.violations, p.number).0))]))
  }

  method UpdateAnnotations(a: Annotator, info: ImageInfo, r: Results, p: Printer) returns (stamped: ImageInfo)
    ensures stamped == Stamped(a, info, r, p)
  {
    var policy, hasPolicyViolations := "None", "false";
    var vulns, hasVulns := "None", "false";
    if r.violations != 0 {
      policy, hasPolicyViolations := p.number(r.violations), "true";
    }
    if r.vulnerabilities != 0 {
      vulns, hasVulns := p.number(r.vulnerabilities), "true";
    }
    var newLabels: Attrs := map[];
    newLabels := newLabels[LABEL_PREFIX + "policy-violations" := policy];
    newLabels := newLabels[LABEL_PREFIX + "has-policy-violations" := hasPolicyViolations];
    newLabels := newLabels[LABEL_PREFIX + "vulnerabilities" := vulns];
    newLabels := newLabels[LABEL_PREFIX + "has-vulnerabilities" := hasVulns];
    var labels := MapMerge(info.labels, newLabels);
    var newAnnotations: Attrs := map[];
    newAnnotations := newAnnotations[VERSION_LABEL := a.scannerVersion];
    newAnnotations := newAnnotations[HUB_LABEL := a.hubServer];
    newAnnotations := newAnnotations[PROJECT_URL := r.url];
    if |r.scanId| > 0 {
      newAnnotations := newAnnotations[SCAN_ID := r.scanId];
    }
    var annotations := MapMerge(info.annotations, newAnnotations);
    assert (hasVulns == "true") == (r.vulnerabilities != 0) && (hasPolicyViolations == "true") == (r.violations != 0) by {
      assert |"true"| != |"false"|;
    }
    annotations := annotations[VULNERABILITY := p.record(VulnerabilityRecord(hasVulns == "true", r.uiUrl, vulns))];
    annotations := annotations[POLICY := p.record(PolicyRecord(hasPolicyViolations == "true", r.uiUrl, policy))];
    stamped := ImageInfo(Some(labels), Some(annotations));
  }

  /** An assignment to a nil map panics. */
  predicate CanMerge(stored: ImageInfo, results: ImageInfo) {
    && (stored.labels.None? ==> Entries(results.labels) == map[])
    && (stored.annotations.None? ==> Entries(results.annotations) == map[])
  }

  /** The record that mergeAnnotationResults leaves when it does not panic; a nil
      map stays nil. */
  function Merged(stored: ImageInfo, results: ImageInfo): ImageInfo {
    ImageInfo(
      if stored.labels.None? then None else Some(stored.labels.value + Entries(results.labels)),
      if stored.annotations.None? then None else Some(stored.annotations.value + Entries(results.annotations)))
  }

  /** None is a panic: the loop has an entry to write and no map. */
  method WriteAll(stored: Option<Attrs>, added: Attrs) returns (written: Option<Option<Attrs>>)
    ensures written.None? <==> stored.None? && added != map[]
    ensures written.Some? ==> written.value == if stored.None? then None else Some(stored.value + added)
  {
    if stored.None? {
      return if added.Keys == {} then Some(None) else None;
    }
    var m := Overwrite(stored.value, added);
    return Some(Some(m));
  }

  method MergeAnnotationResults(stored: ImageInfo, results: ImageInfo) returns (merged: Option<ImageInfo>)
    ensures merged.Some? <==> CanMerge(stored, results)
    ensures merged.Some? ==> merged.value == Merged(stored, results)
  {
    var labels := WriteAll(stored.labels, Entries(results.labels));
    if labels.None? {
      return None;
    }
    var annotations := WriteAll(stored.annotations, Entries(results.annotations));
    if annotations.None? {
      return None;
    }
    return Some(ImageInfo(labels.value, annotations.value));
  }

  /** The annotation is there with the value. */
  predicate Has(m: Attrs, key: string, value: string) {
    key in m && m[key] == value
  }

  /** `valid` asks the Hub for a project version. A scan is not needed only where all
      three annotations are there and right. */
  method IsScanNeeded(a: Annotator, info: ImageInfo, valid: string -> bool) returns (needed: bool)
    ensures !needed <==>
            && info.annotations.Some?
            && Has(info.annotations.value, VERSION_LABEL, a.scannerVersion)
            && Has(info.annotations.value, HUB_LABEL, a.hubServer)
            && PROJECT_URL in info.annotations.value && valid(info.annotations.value[PROJECT_URL])
    ensures info.annotations.None? ==> needed
    ensures !needed <==> Satisfied(a, Entries(info.annotations), valid)
  {
    if info.annotations.None? {
      return true;
    }
    var annotations := info.annotations.value;
    var versionRequired := true;
    if VERSION_LABEL in annotations && annotations[VERSION_LABEL] == a.scannerVersion {
      versionRequired := false;
    }
    var hubRequired := true;
    if HUB_LABEL in annotations && annotations[HUB_LABEL] == a.hubServer {
      hubRequired := false;
    }
    var projectVersionRescan := true;
    if PROJECT_URL in annotations && valid(annotations[PROJECT_URL]) {
      projectVersionRescan := false;
    }
    return versionRequired || hubRequired || projectVersionRescan;
  }

  /** What the cluster answers when asked for the image's record. */
  datatype Lookup = NoClient | LookupFailed | Image(info: ImageInfo)

  method IsImageStreamScanNeeded(a: Annotator, lookup: Lookup, valid: string -> bool) returns (needed: bool)
    ensures lookup.NoClient? ==> !needed
    ensures lookup.LookupFailed? ==> needed
    ensures lookup.Image? ==>
              (!needed <==>
               && lookup.info.annotations.Some?
               && Has(lookup.info.annotations.value, VERSION_LABEL, a.scannerVersion)
               && Has(lookup.info.annotations.value, HUB_LABEL, a.hubServer)
               && PROJECT_URL in lookup.info.annotations.value && valid(lookup.info.annotations.value[PROJECT_URL]))
    ensures lookup.Image? ==> (!needed <==> Satisfied(a, Entries(lookup.info.annotations), valid))
  {
    match lookup
    case NoClient => return false;
    case LookupFailed => return true;
    case Image(info) =>
      var known := if info.annotations.None? then ImageInfo(info.labels, Some(map[])) else info;
      needed := IsScanNeeded(a, known, valid);
  }

  /** No scan is needed. */
  ghost predicate Satisfied(a: Annotator, m: Attrs, valid: string -> bool) {
    Has(m, VERSION_LABEL, a.scannerVersion) && Has(m, HUB_LABEL, a.hubServer) && PROJECT_URL in m && valid(m[PROJECT_URL])
  }

  /** An image that lacks any of the three annotations is always scanned: so is one
      that has none at all. */
  lemma UnmarkedIsScanned(a: Annotator, m: Attrs, valid: string -> bool)
    ensures Satisfied(a, m, valid) ==>
              && "blackducksoftware.com/hub-scanner-version" in m && m["blackducksoftware.com/hub-scanner-version"] == a.scannerVersion
              && "blackducksoftware.com/attestation-hub-server" in m && m["blackducksoftware.com/attestation-hub-server"] == a.hubServer
              && "blackducksoftware.com/project-endpoint" in m && valid(m["blackducksoftware.com/project-endpoint"])
    ensures !Satisfied(a, map[], valid)
  {
  }

  lemma KeysDiffer()
    ensures |{VERSION_LABEL, HUB_LABEL, SCAN_ID, PROJECT_URL, VULNERABILITY, POLICY}| == 6
    ensures VULNERABILITY !in {VERSION_LABEL, HUB_LABEL, PROJECT_URL, SCAN_ID}
    ensures POLICY !in {VERSION_LABEL, HUB_LABEL, PROJECT_URL, SCAN_ID}
  {
    assert |VERSION_LABEL| == 41 && |HUB_LABEL| == 44 && |SCAN_ID| == 29 && |PROJECT_URL| == 38;
    assert |VULNERABILITY| == 51 && |POLICY| == 44;
    assert HUB_LABEL[0] != POLICY[0];
  }

  /** What a stamp says, key by key: the labels tell violations and vulnerabilities
      apart, the annotations name scanner, Hub, project and scan, the two records
      comply exactly where the count they are about is zero, and every other label
      is as it was. */
  lemma StampSays(a: Annotator, info: ImageInfo, r: Results, p: Printer)
    ensures Stamped(a, info, r, p).labels.Some? && Stamped(a, info, r, p).annotations.Some?
    ensures var labels := Stamped(a, info, r, p).labels.value;
            && Has(labels, "com.blackducksoftware.image.policy-violations", if r.violations == 0 then "None" else p.number(r.violations))
            && Has(labels, "com.blackducksoftware.image.has-policy-violations", if r.violations == 0 then "false" else "true")
            && Has(labels, "com.blackducksoftware.image.vulnerabilities", if r.vulnerabilities == 0 then "None" else p.number(r.vulnerabilities))
            && Has(labels, "com.blackducksoftware.image.has-vulnerabilities", if r.vulnerabilities == 0 then "false" else "true")
    ensures var annotations := Stamped(a, info, r, p).annotations.value;
            && Has(annotations, "blackducksoftware.com/hub-scanner-version", a.scannerVersion)
            && Has(annotations, "blackducksoftware.com/attestation-hub-server", a.hubServer)
            && Has(annotations, "blackducksoftware.com/project-endpoint", r.url)
            && (r.scanId != "" ==> Has(annotations, "blackducksoftware.com/scan-id", r.scanId))
            && Has(annotations, "quality.images.openshift.io/vulnerability.blackduck",
                   p.record(Record("blackducksoftware", "Vulnerability Info", r.uiUrl, r.vulnerabilities == 0, "high",
                                   if r.vulnerabilities == 0 then "None" else p.number(r.vulnerabilities))))
            && Has(annotations, "quality.images.openshift.io/policy.blackduck",
                   p.record(Record("blackducksoftware", "Policy Info", r.uiUrl, r.violations == 0, "important",
                                   if r.violations == 0 then "None" else p.number(r.violations))))
    ensures var stamped := Stamped(a, info, r, p);
            forall key | key !in {"com.blackducksoftware.image.policy-violations", "com.blackducksoftware.image.has-policy-violations",
                                  "com.blackducksoftware.image.vulnerabilities", "com.blackducksoftware.image.has-vulnerabilities"} ::
              && (key in stamped.labels.value <==> key in Entries(info.labels))
              && (key in Entries(info.labels) ==> stamped.labels.value[key] == Entries(info.labels)[key])
  {
    LabelKeys();
    KeysDiffer();
  }

  lemma LabelKeys()
    ensures LABEL_PREFIX + "policy-violations" == "com.blackducksoftware.image.policy-violations"
    ensures LABEL_PREFIX + "has-policy-violations" == "com.blackducksoftware.image.has-policy-violations"
    ensures LABEL_PREFIX + "vulnerabilities" == "com.blackducksoftware.image.vulnerabilities"
    ensures LABEL_PREFIX + "has-vulnerabilities" == "com.blackducksoftware.image.has-vulnerabilities"
    ensures |"com.blackducksoftware.image.policy-violations"| == 45 && |"com.blackducksoftware.image.has-policy-violations"| == 49
    ensures |"com.blackducksoftware.image.vulnerabilities"| == 43 && |"com.blackducksoftware.image.has-vulnerabilities"| == 47
  {
  }

  /** Stamp, store, check: storing panics if and only if the stored record lacks one
      of its maps; otherwise, whatever the image carried before, a scan is still
      needed if and only if the stamped project is not on the Hub. A different
      scanner version or Hub wants its own scan. */
  lemma StampThenCheck(a: Annotator, b: Annotator, prior: ImageInfo, stored: ImageInfo, r: Results, p: Printer, valid: string -> bool)
    ensures var stamped := Stamped(a, prior, r, p);
            && (CanMerge(stored, stamped) <==> stored.labels.Some? && stored.annotations.Some?)
            && (CanMerge(stored, stamped) ==>
                  (Satisfied(b, Entries(Merged(stored, stamped).annotations), valid) <==> a == b && valid(r.url)))
  {
    KeysDiffer();
    var stamped := Stamped(a, prior, r, p);
    assert LABEL_PREFIX + "vulnerabilities" in stamped.labels.value && VULNERABILITY in stamped.annotations.value;
    if CanMerge(stored, stamped) {
      var m := Entries(Merged(stored, stamped).annotations);
      assert Has(m, VERSION_LABEL, a.scannerVersion) && Has(m, HUB_LABEL, a.hubServer) && Has(m, PROJECT_URL, r.url);
    }
  }

  /** At the key, the second map overrides the first. */
  ghost predicate Overrides(before: Attrs, added: Attrs, both: Attrs, key: string) {
    && (key in both <==> key in before || key in added)
    && (key in both ==> both[key] == if key in added then added[key] else before[key])
  }

  /** Storing results writes every label and annotation of theirs, keeps every other
      one, and twice is once. */
  lemma MergeKeepsTheRest(stored: ImageInfo, results: ImageInfo, key: string)
    requires CanMerge(stored, results)
    ensures CanMerge(Merged(stored, results), results) && Merged(Merged(stored, results), results) == Merged(stored, results)
    ensures Overrides(Entries(stored.labels), Entries(results.labels), Entries(Merged(stored, results).labels), key)
    ensures Overrides(Entries(stored.annotations), Entries(results.annotations), Entries(Merged(stored, results).annotations), key)
  {
    var once := Merged(stored, results);
    assert once.labels.Some? ==> once.labels.value + Entries(results.labels) == once.labels.value;
    assert once.annotations.Some? ==> once.annotations.value + Entries(results.annotations) == once.annotations.value;
  }

  /** Only the stamp's own keys change: what an image carried under any other key,
      or as its scan id when the stamp has none, is still there. */
  lemma StampKeepsTheRest(a: Annotator, info: ImageInfo, r: Results, p: Printer, key: string)
    requires key !in {VERSION_LABEL, HUB_LABEL, PROJECT_URL, VULNERABILITY, POLICY} && (key == SCAN_ID ==> r.scanId == "")
    ensures var stamped := Stamped(a, info, r, p);
            && (key in Entries(stamped.annotations) <==> key in Entries(info.annotations))
            && (key in Entries(info.annotations) ==> Entries(stamped.annotations)[key] == Entries(info.annotations)[key])
  {
  }
}
