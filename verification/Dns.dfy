/** DNS records kept in a zone that others write to as well: a remark says which service, on
    which plane and for which purpose a record was made, and only such records are touched. */
module Dns {
  import opened StoreModel
  import opened Strings

  datatype ZoneRecord = ZoneRecord(id: nat, subdomain: string, kind: string, content: string, remark: string)

  datatype Managed = Managed(
    plane: string, service: string, host: string, kind: string, content: string, purpose: string)

  const SUBDOMAIN_LIMIT: nat := 100
  const DOMAIN_LIMIT: nat := 3000

  // ---- The remark ----

  const OWNER := "mini-cloud"

  function Remark(service: string, plane: string, purpose: string): string {
    OWNER + " service=" + service + " plane=" + plane + " purpose=" + purpose
  }

  function ManagedRemark(record: Managed): string {
    Remark(Trim(record.service), Trim(record.plane), Trim(record.purpose))
  }

  predicate OwnedBy(remark: string, record: Managed) {
    Trim(remark) == ManagedRemark(record)
  }

  predicate NoBlanks(s: string) {
    forall c | c in s :: !IsSpace(c)
  }

  lemma NoBlanksIsTrimmed(s: string)
    requires NoBlanks(s)
    ensures Trim(s) == s
  {
    TrimIsTrimmed(s);
    assert s != "" ==> s[0] in s && s[|s| - 1] in s;
  }

  // ---- Reading the purpose back ----

  /** The part before the first blank. */
  function Word(s: string): (w: string)
    ensures |w| <= |s|
    ensures s != "" && !IsSpace(s[0]) ==> w != ""
  {
    if s == "" || IsSpace(s[0]) then "" else [s[0]] + Word(s[1..])
  }

  /** `strings.Fields`. */
  function Fields(s: string): seq<string>
    decreases |s|
  {
    if s == "" then []
    else if IsSpace(s[0]) then Fields(s[1..])
    else [Word(s)] + Fields(s[|Word(s)|..])
  }

  const PURPOSE := "purpose="

  function PurposeOf(fields: seq<string>): string {
    if fields == [] then ""
    else if PURPOSE <= fields[0] then fields[0][|PURPOSE|..]
    else PurposeOf(fields[1..])
  }

  method PurposeFromRemark(remark: string) returns (purpose: string)
    ensures purpose == PurposeOf(Fields(Trim(remark)))
  {
    var fields := Fields(Trim(remark));
    assert fields[0..] == fields;
    for i := 0 to |fields|
      invariant PurposeOf(fields[i..]) == PurposeOf(fields)
    {
      assert fields[i..][1..] == fields[i + 1..];
      if PURPOSE <= fields[i] {
        return fields[i][|PURPOSE|..];
      }
    }
    return "";
  }

  lemma {:induction false} WordEnds(a: string, rest: string)
    requires NoBlanks(a) && (rest == "" || IsSpace(rest[0]))
    ensures Word(a + rest) == a
  {
    if a == "" {
      assert a + rest == rest;
    } else {
      assert (a + rest)[1..] == a[1..] + rest;
      assert a[0] in a;
      WordEnds(a[1..], rest);
    }
  }

  lemma FieldsOfWord(a: string, rest: string)
    requires NoBlanks(a) && a != ""
    ensures Fields(a + " " + rest) == [a] + Fields(rest)
    ensures Fields(a) == [a]
  {
    var s := a + " " + rest;
    assert IsSpace(' ') && a[0] in a;
    assert s == a + (" " + rest);
    WordEnds(a, " " + rest);
    assert s[|a|..] == " " + rest;
    assert (" " + rest)[1..] == rest;
    WordEnds(a, "");
    assert a + "" == a;
  }

  lemma {:induction false} WordHasNoBlanks(s: string)
    ensures NoBlanks(Word(s)) && Word(s) <= s
    ensures NoBlanks(s) <==> Word(s) == s
  {
    if s != "" && !IsSpace(s[0]) {
      WordHasNoBlanks(s[1..]);
      assert s == [s[0]] + s[1..];
    }
  }

  lemma FieldsOfFour(o: string, s: string, p: string, u: string)
    requires NoBlanks(o) && NoBlanks(s) && NoBlanks(p) && o != "" && s != "" && p != ""
    ensures Fields(o + " " + (s + " " + (p + " " + u))) == [o] + ([s] + ([p] + Fields(u)))
  {
    FieldsOfWord(o, s + " " + (p + " " + u));
    FieldsOfWord(s, p + " " + u);
    FieldsOfWord(p, u);
  }

  lemma PurposeSkips(field: string, fields: seq<string>)
    requires !(PURPOSE <= field)
    ensures PurposeOf([field] + fields) == PurposeOf(fields)
  {
    assert ([field] + fields)[1..] == fields;
  }

  lemma RemarkFields(service: string, plane: string, purpose: string)
    ensures Remark(service, plane, purpose)
         == OWNER + " " + ("service=" + service + " " + ("plane=" + plane + " " + (PURPOSE + purpose)))
  {}

  lemma RemarkIsTrimmed(service: string, plane: string, purpose: string)
    requires purpose != "" && Trimmed(purpose)
    ensures Trim(Remark(service, plane, purpose)) == Remark(service, plane, purpose)
  {
    var remark := Remark(service, plane, purpose);
    assert remark[0] == 'm' && remark[|remark| - 1] == purpose[|purpose| - 1];
    TrimIsTrimmed(remark);
  }

  lemma NoBlanksAppend(a: string, b: string)
    requires NoBlanks(a) && NoBlanks(b)
    ensures NoBlanks(a + b)
  {}

  lemma PurposeOfFour(o: string, s: string, p: string, u: string, w: string)
    requires NoBlanks(o) && NoBlanks(s) && NoBlanks(p) && o != "" && s != "" && p != ""
    requires !(PURPOSE <= o) && !(PURPOSE <= s) && !(PURPOSE <= p)
    requires Fields(u) != [] && Fields(u)[0] == PURPOSE + w
    ensures PurposeOf(Fields(o + " " + (s + " " + (p + " " + u)))) == w
  {
    FieldsOfFour(o, s, p, u);
    var fields := Fields(u);
    PurposeSkips(o, [s] + ([p] + fields));
    PurposeSkips(s, [p] + fields);
    PurposeSkips(p, fields);
    assert (PURPOSE + w)[|PURPOSE|..] == w;
  }

  lemma NotAPurpose(service: string, plane: string)
    ensures !(PURPOSE <= OWNER) && !(PURPOSE <= "service=" + service) && !(PURPOSE <= "plane=" + plane)
  {
    assert PURPOSE[0] == 'p' && PURPOSE[1] == 'u' && OWNER[0] == 'm';
    assert ("service=" + service)[0] == 's' && ("plane=" + plane)[1] == 'l';
  }

  /** A remark gives back the first word of the purpose it was made with. */
  lemma PurposeOfRemark(service: string, plane: string, purpose: string)
    requires NoBlanks(service) && NoBlanks(plane) && purpose != "" && Trimmed(purpose)
    ensures PurposeOf(Fields(Trim(Remark(service, plane, purpose)))) == Word(purpose)
  {
    RemarkIsTrimmed(service, plane, purpose);
    RemarkFields(service, plane, purpose);
    OwnerHasNoBlanks();
    NoBlanksAppend("service=", service);
    NoBlanksAppend("plane=", plane);
    NotAPurpose(service, plane);
    WordOfPurpose(purpose);
    PurposeOfFour(OWNER, "service=" + service, "plane=" + plane, PURPOSE + purpose, Word(purpose));
  }

  lemma OwnerHasNoBlanks()
    ensures NoBlanks(OWNER) && NoBlanks("service=") && NoBlanks("plane=") && NoBlanks(PURPOSE)
  {}

  lemma {:induction false} WordAppend(a: string, b: string)
    requires NoBlanks(a)
    ensures Word(a + b) == a + Word(b)
  {
    if a == "" {
      assert a + b == b;
    } else {
      assert a[0] in a;
      assert (a + b)[1..] == a[1..] + b;
      WordAppend(a[1..], b);
    }
  }

  lemma WordOfPurpose(purpose: string)
    ensures Word(PURPOSE + purpose) == PURPOSE + Word(purpose)
    ensures Fields(PURPOSE + purpose) != [] && Fields(PURPOSE + purpose)[0] == PURPOSE + Word(purpose)
  {
    OwnerHasNoBlanks();
    WordAppend(PURPOSE, purpose);
  }

  /** Two words that end at their first blank. */
  lemma SameWord(a: string, b: string, x: string, y: string)
    requires NoBlanks(a) && NoBlanks(b) && a + " " + x == b + " " + y
    ensures a == b && x == y
  {
    var whole := a + " " + x;
    assert whole == a + (" " + x) && whole == b + (" " + y);
    WordEnds(a, " " + x);
    WordEnds(b, " " + y);
    assert x == whole[|a| + 1..] && y == whole[|b| + 1..];
  }

  lemma RemarkParts(service: string, plane: string, purpose: string)
    ensures Remark(service, plane, purpose)
         == (OWNER + " service=") + (service + " " + (("plane=" + plane) + " " + (PURPOSE + purpose)))
  {}

  lemma PlaneAndPurpose(plane: string, purpose: string, plane': string, purpose': string)
    requires NoBlanks(plane) && NoBlanks(plane')
    requires ("plane=" + plane) + " " + (PURPOSE + purpose) == ("plane=" + plane') + " " + (PURPOSE + purpose')
    ensures plane == plane' && purpose == purpose'
  {
    OwnerHasNoBlanks();
    NoBlanksAppend("plane=", plane);
    NoBlanksAppend("plane=", plane');
    SameWord("plane=" + plane, "plane=" + plane', PURPOSE + purpose, PURPOSE + purpose');
    SameTail("plane=", plane, plane');
    SameTail(PURPOSE, purpose, purpose');
  }

  /** Without blanks in the identifiers a remark says who made it, whatever the purposes. */
  lemma RemarkIsInjective(service: string, plane: string, purpose: string,
                          service': string, plane': string, purpose': string)
    requires NoBlanks(service) && NoBlanks(plane) && NoBlanks(service') && NoBlanks(plane')
    ensures Remark(service, plane, purpose) == Remark(service', plane', purpose')
       <==> service == service' && plane == plane' && purpose == purpose'
  {
    if Remark(service, plane, purpose) == Remark(service', plane', purpose') {
      RemarkParts(service, plane, purpose);
      RemarkParts(service', plane', purpose');
      var rest := ("plane=" + plane) + " " + (PURPOSE + purpose);
      var rest' := ("plane=" + plane') + " " + (PURPOSE + purpose');
      SameTail(OWNER + " service=", service + " " + rest, service' + " " + rest');
      SameWord(service, service', rest, rest');
      PlaneAndPurpose(plane, purpose, plane', purpose');
    }
  }

  lemma SameTail(head: string, x: string, y: string)
    requires head + x == head + y
    ensures x == y
  {
    assert x == (head + x)[|head|..] && y == (head + y)[|head|..];
  }

  /** The purpose is read back exactly when it has no blanks in it. */
  lemma PurposeReadsBack(service: string, plane: string, purpose: string)
    requires NoBlanks(service) && NoBlanks(plane) && purpose != "" && Trimmed(purpose)
    ensures PurposeOf(Fields(Trim(Remark(service, plane, purpose)))) == purpose <==> NoBlanks(purpose)
  {
    PurposeOfRemark(service, plane, purpose);
    WordHasNoBlanks(purpose);
  }

  // ---- The zone ----

  ghost predicate IdsDiffer(zone: seq<ZoneRecord>) {
    forall i, j | 0 <= i < j < |zone| :: zone[i].id != zone[j].id
  }

  predicate IsAt(r: ZoneRecord, subdomain: string, kind: string) {
    r.subdomain == subdomain && r.kind == kind
  }

  function Matching(zone: seq<ZoneRecord>, subdomain: string, kind: string): (m: seq<ZoneRecord>)
    ensures forall r :: r in m <==> r in zone && IsAt(r, subdomain, kind)
  {
    if zone == [] then []
    else (if IsAt(zone[0], subdomain, kind) then [zone[0]] else []) + Matching(zone[1..], subdomain, kind)
  }

  function First(records: seq<ZoneRecord>, limit: nat): (m: seq<ZoneRecord>)
    ensures m <= records
  {
    if |records| <= limit then records else records[..limit]
  }

  /** `recordsForSubdomain`: one page of the listing. */
  function Listed(zone: seq<ZoneRecord>, subdomain: string, kind: string): seq<ZoneRecord> {
    First(Matching(zone, subdomain, kind), SUBDOMAIN_LIMIT)
  }

  function Edited(r: ZoneRecord, id: nat, content: string, remark: string): ZoneRecord {
    if r.id == id then r.(content := content, remark := remark) else r
  }

  function Modify(zone: seq<ZoneRecord>, id: nat, content: string, remark: string): (after: seq<ZoneRecord>)
    ensures |after| == |zone|
    ensures forall k | 0 <= k < |zone| :: after[k] == Edited(zone[k], id, content, remark)
  {
    if zone == [] then [] else [Edited(zone[0], id, content, remark)] + Modify(zone[1..], id, content, remark)
  }

  function Without(zone: seq<ZoneRecord>, id: nat): (after: seq<ZoneRecord>)
    ensures forall r :: r in after <==> r in zone && r.id != id
  {
    if zone == [] then [] else (if zone[0].id != id then [zone[0]] else []) + Without(zone[1..], id)
  }

  // ---- Ensuring a record ----

  /** How the value of a record of some kind is brought into canonical form. */
  type Cleaner = (string, string) -> string

  datatype CreateAnswer = Made | AlreadyExists | Rejected(takesEffect: bool)

  /** What the calls of one operation answer; `appeared` is what others added in between. */
  datatype Answers = Answers(listFails: bool, create: CreateAnswer, newId: nat, appeared: seq<ZoneRecord>,
                             relistFails: bool, modifyFails: bool, modifyTakesEffect: bool)

  datatype Verdict = Absent | Settled | Failing

  function Normalized(record: Managed, clean: Cleaner): Managed {
    record.(plane := Trim(record.plane), service := Trim(record.service), purpose := Trim(record.purpose),
            content := clean(record.kind, record.content))
  }

  /** `validateManagedDNSRecord`. */
  predicate Complete(record: Managed) {
    record.plane != "" && record.service != "" && record.host != "" && record.kind != "" && record.purpose != ""
  }

  function SubdomainOf(host: string, domain: string): Option<string> {
    if host == domain then Some("@")
    else if EndsWith(host, "." + domain) then Some(host[..|host| - |domain| - 1])
    else None
  }

  /** The name within the zone is the host without the dot and the domain; the domain itself is
      `@`, and any other host has none. */
  lemma SubdomainIff(host: string, domain: string)
    ensures SubdomainOf(host, domain).Some? <==> host == domain || exists front: string :: host == front + "." + domain
    ensures SubdomainOf(host, domain).Some? ==>
              if host == domain then SubdomainOf(host, domain).value == "@"
              else host == SubdomainOf(host, domain).value + "." + domain
  {
    if EndsWith(host, "." + domain) {
      var front := host[..|host| - |domain| - 1];
      assert host == front + host[|front|..];
      assert host == front + "." + domain;
    }
    if front: string :| host == front + "." + domain {
      assert host == front + ("." + domain);
      assert host[|front|..] == "." + domain;
    }
  }

  predicate UpToDate(r: ZoneRecord, record: Managed, clean: Cleaner) {
    clean(record.kind, r.content) == record.content && Trim(r.remark) == ManagedRemark(record)
  }

  function EnsureAgainst(zone: seq<ZoneRecord>, record: Managed, listed: seq<ZoneRecord>, clean: Cleaner, a: Answers)
    : (seq<ZoneRecord>, Verdict)
  {
    if listed == [] then (zone, Absent)
    else if !OwnedBy(listed[0].remark, record) then (zone, Failing)
    else if UpToDate(listed[0], record, clean) then (zone, Settled)
    else
      var modified := Modify(zone, listed[0].id, record.content, ManagedRemark(record));
      if !a.modifyFails then (modified, Settled) else (if a.modifyTakesEffect then modified else zone, Failing)
  }

  function NewRecord(record: Managed, subdomain: string, id: nat): ZoneRecord {
    ZoneRecord(id, subdomain, record.kind, record.content, ManagedRemark(record))
  }

  function Create(zone: seq<ZoneRecord>, record: Managed, subdomain: string, clean: Cleaner, a: Answers)
    : (seq<ZoneRecord>, bool)
  {
    var made := zone + [NewRecord(record, subdomain, a.newId)];
    match a.create
    case Made => (made, true)
    case Rejected(takesEffect) => (if takesEffect then made else zone, false)
    case AlreadyExists =>
      if a.relistFails then (zone, false)
      else
        var (after, verdict) := EnsureAgainst(zone, record, Listed(zone, subdomain, record.kind), clean, a);
        (after, verdict == Settled)
  }

  function Ensure(zone: seq<ZoneRecord>, domain: string, clean: Cleaner, given: Managed, a: Answers)
    : (seq<ZoneRecord>, bool)
  {
    var record := Normalized(given, clean);
    var subdomain := SubdomainOf(record.host, domain);
    if !Complete(record) || subdomain == None || a.listFails then (zone, false)
    else
      var (after, verdict) :=
        EnsureAgainst(zone, record, Listed(zone, subdomain.value, record.kind), clean, a);
      if verdict != Absent then (after, verdict == Settled)
      else Create(zone + a.appeared, record, subdomain.value, clean, a)
  }

  // ---- Deleting records ----

  datatype DeleteAnswer = Removed | Kept(takesEffect: bool)

  type Chooser = ZoneRecord -> bool

  /** Deletes the chosen ones of the listed records, one call each, up to the first failure. */
  function DeleteListed(zone: seq<ZoneRecord>, listed: seq<ZoneRecord>, chosen: Chooser, answers: nat -> DeleteAnswer)
    : (seq<ZoneRecord>, bool)
    decreases |listed|
  {
    if listed == [] then (zone, true)
    else if !chosen(listed[0]) then DeleteListed(zone, listed[1..], chosen, answers)
    else
      var id := listed[0].id;
      match answers(id)
      case Kept(takesEffect) => (if takesEffect then Without(zone, id) else zone, false)
      case Removed => DeleteListed(Without(zone, id), listed[1..], chosen, answers)
  }

  /** `DeleteRecord` deletes the records made for exactly this record, with its value if it has one. */
  predicate SameRecord(r: ZoneRecord, record: Managed, clean: Cleaner) {
    OwnedBy(r.remark, record) && (record.content == "" || clean(record.kind, r.content) == record.content)
  }

  predicate HasAddress(r: ZoneRecord) {
    r.id != 0 && r.subdomain != "" && r.kind != ""
  }

  /** `DeleteServiceRecords` deletes the records of one purpose, or of the purpose each names. */
  predicate OfService(r: ZoneRecord, plane: string, service: string, purpose: string) {
    && HasAddress(r)
    && Trim(r.remark)
       == Remark(service, plane, if purpose != "" then purpose else Trim(PurposeOf(Fields(Trim(r.remark)))))
  }

  /** `DeleteRecord` after its listing; `appeared` is what others have added since then. */
  ghost function RecordDeleted(zone: seq<ZoneRecord>, appeared: seq<ZoneRecord>, record: Managed, subdomain: string,
                               clean: Cleaner, answers: nat -> DeleteAnswer): (seq<ZoneRecord>, bool)
  {
    DeleteListed(zone + appeared, Listed(zone, subdomain, record.kind), r => SameRecord(r, record, clean), answers)
  }

  /** `DeleteServiceRecords` after its listing. */
  ghost function ServiceDeleted(zone: seq<ZoneRecord>, appeared: seq<ZoneRecord>, plane: string, service: string,
                                purpose: string, answers: nat -> DeleteAnswer): (seq<ZoneRecord>, bool)
  {
    DeleteListed(zone + appeared, First(zone, DOMAIN_LIMIT), r => OfService(r, plane, service, purpose), answers)
  }

  class DnsPodClient {
    const domain: string
    const clean: Cleaner
    var zone: seq<ZoneRecord>

    constructor (domain: string, clean: Cleaner, zone: seq<ZoneRecord>)
      ensures this.domain == domain && this.clean == clean && this.zone == zone
    {
      this.domain, this.clean, this.zone := domain, clean, zone;
    }

    method EnsureAgainstExistingRecords(record: Managed, listed: seq<ZoneRecord>, a: Answers) returns (v: Verdict)
      modifies this`zone
      ensures (zone, v) == EnsureAgainst(old(zone), record, listed, clean, a)
    {
      if listed == [] {
        return Absent;
      }
      var existing := listed[0];
      if !OwnedBy(existing.remark, record) {
        return Failing;
      }
      if clean(record.kind, existing.content) == record.content && Trim(existing.remark) == ManagedRemark(record) {
        return Settled;
      }
      if !a.modifyFails || a.modifyTakesEffect {
        zone := Modify(zone, existing.id, record.content, ManagedRemark(record));
      }
      return if a.modifyFails then Failing else Settled;
    }

    method EnsureRecord(given: Managed, a: Answers) returns (ok: bool)
      modifies this`zone
      ensures (zone, ok) == Ensure(old(zone), domain, clean, given, a)
    {
      var record := Normalized(given, clean);
      if !Complete(record) {
        return false;
      }
      var subdomain := SubdomainOf(record.host, domain);
      if subdomain == None || a.listFails {
        return false;
      }
      var verdict := EnsureAgainstExistingRecords(record, Listed(zone, subdomain.value, record.kind), a);
      if verdict != Absent {
        return verdict == Settled;
      }
      zone := zone + a.appeared;
      match a.create {
        case Made =>
          zone := zone + [NewRecord(record, subdomain.value, a.newId)];
          return true;
        case Rejected(takesEffect) =>
          if takesEffect {
            zone := zone + [NewRecord(record, subdomain.value, a.newId)];
          }
          return false;
        case AlreadyExists =>
          if a.relistFails {
            return false;
          }
          verdict := EnsureAgainstExistingRecords(record, Listed(zone, subdomain.value, record.kind), a);
          return verdict == Settled;
      }
    }

    method DeleteEach(listed: seq<ZoneRecord>, chosen: Chooser, answers: nat -> DeleteAnswer) returns (ok: bool)
      modifies this`zone
      ensures (zone, ok) == DeleteListed(old(zone), listed, chosen, answers)
    {
      ghost var start := zone;
      assert listed[0..] == listed;
      for i := 0 to |listed|
        invariant DeleteListed(zone, listed[i..], chosen, answers) == DeleteListed(start, listed, chosen, answers)
      {
        assert listed[i..][1..] == listed[i + 1..];
        var existing := listed[i];
        if !chosen(existing) {
          continue;
        }
        var answer := answers(existing.id);
        if answer == Removed || answer.takesEffect {
          zone := Without(zone, existing.id);
        }
        if answer != Removed {
          return false;
        }
      }
      return true;
    }

    method DeleteRecord(given: Managed, listFails: bool, appeared: seq<ZoneRecord>, answers: nat -> DeleteAnswer)
      returns (ok: bool)
      modifies this`zone
      ensures var record := Normalized(given, clean);
              var subdomain := SubdomainOf(record.host, domain);
              if !Complete(record) || subdomain == None || listFails then !ok && zone == old(zone)
              else (zone, ok) == RecordDeleted(old(zone), appeared, record, subdomain.value, clean, answers)
    {
      var record := Normalized(given, clean);
      if !Complete(record) {
        return false;
      }
      var subdomain := SubdomainOf(record.host, domain);
      if subdomain == None || listFails {
        return false;
      }
      var listed := Listed(zone, subdomain.value, record.kind);
      zone := zone + appeared;
      ok := DeleteEach(listed, r => SameRecord(r, record, clean), answers);
    }

    method DeleteServiceRecords(planeId: string, serviceId: string, purposeId: string, listFails: bool,
                                appeared: seq<ZoneRecord>, answers: nat -> DeleteAnswer) returns (ok: bool)
      modifies this`zone
      ensures var plane, service, purpose := Trim(planeId), Trim(serviceId), Trim(purposeId);
              if plane == "" || service == "" || listFails then !ok && zone == old(zone)
              else (zone, ok) == ServiceDeleted(old(zone), appeared, plane, service, purpose, answers)
    {
      var plane, service, purpose := Trim(planeId), Trim(serviceId), Trim(purposeId);
      if plane == "" || service == "" || listFails {
        return false;
      }
      var listed := First(zone, DOMAIN_LIMIT);
      zone := zone + appeared;
      ok := DeleteEach(listed, r => OfService(r, plane, service, purpose), answers);
    }
  }

  // ---- What ensuring touches ----

  /** What may have happened to a record nobody else changed: nothing, or, if it was made for
      `record`, an update of its value and remark. */
  predicate TouchedFor(r: ZoneRecord, after: ZoneRecord, record: Managed) {
    || after == r
    || (&& Trim(r.remark) == Remark(Trim(record.service), Trim(record.plane), Trim(record.purpose))
        && after == r.(content := record.content, remark := ManagedRemark(record)))
  }

  lemma EnsureAgainstTouches(zone: seq<ZoneRecord>, record: Managed, subdomain: string, clean: Cleaner, a: Answers)
    requires IdsDiffer(zone)
    ensures var after := EnsureAgainst(zone, record, Listed(zone, subdomain, record.kind), clean, a).0;
            |after| == |zone| && forall k | 0 <= k < |zone| :: TouchedFor(zone[k], after[k], record)
  {
    var listed := Listed(zone, subdomain, record.kind);
    if listed != [] {
      assert listed[0] in Matching(zone, subdomain, record.kind);
      assert listed[0] in zone;
    }
  }

  ghost predicate OnlyOwnTouched(before: seq<ZoneRecord>, after: seq<ZoneRecord>, record: Managed) {
    && |before| <= |after| <= |before| + 1
    && (forall k | 0 <= k < |before| :: TouchedFor(before[k], after[k], record))
    && (|after| > |before| ==> after[|before|].remark == ManagedRemark(record))
  }

  lemma CreateTouches(zone: seq<ZoneRecord>, record: Managed, subdomain: string, clean: Cleaner, a: Answers)
    requires IdsDiffer(zone)
    ensures OnlyOwnTouched(zone, Create(zone, record, subdomain, clean, a).0, record)
  {
    EnsureAgainstTouches(zone, record, subdomain, clean, a);
  }

  /** Of the records there, and of those others add before it creates one, `EnsureRecord`
      changes only such as were made for the same plane, service and purpose; it adds at most
      one, its own. */
  lemma EnsureTouchesOwn(zone: seq<ZoneRecord>, domain: string, clean: Cleaner, given: Managed, a: Answers)
    requires IdsDiffer(zone + a.appeared)
    ensures var record, after := Normalized(given, clean), Ensure(zone, domain, clean, given, a).0;
            OnlyOwnTouched(zone, after, record) || OnlyOwnTouched(zone + a.appeared, after, record)
  {
    var record := Normalized(given, clean);
    var subdomain := SubdomainOf(record.host, domain);
    assert IdsDiffer(zone) by {
      assert forall k | 0 <= k < |zone| :: zone[k] == (zone + a.appeared)[k];
    }
    if subdomain.Some? {
      EnsureAgainstTouches(zone, record, subdomain.value, clean, a);
      CreateTouches(zone + a.appeared, record, subdomain.value, clean, a);
    }
  }

  // ---- What deleting touches ----

  lemma {:induction false} DeleteListedKeeps(zone: seq<ZoneRecord>, listed: seq<ZoneRecord>, chosen: Chooser,
                                             answers: nat -> DeleteAnswer)
    requires forall r, q | r in zone && q in listed && r.id == q.id :: r == q
    ensures var (after, ok) := DeleteListed(zone, listed, chosen, answers);
            && (forall r | r in after :: r in zone)
            && (forall r | r in zone && !(r in listed && chosen(r)) :: r in after)
            && (ok ==> forall r | r in after :: !(r in listed && chosen(r)))
    decreases |listed|
  {
    if listed != [] {
      var r := listed[0];
      assert listed == [r] + listed[1..];
      if !chosen(r) {
        DeleteListedKeeps(zone, listed[1..], chosen, answers);
      } else if answers(r.id) == Removed {
        DeleteListedKeeps(Without(zone, r.id), listed[1..], chosen, answers);
      }
    }
  }

  /** The first delete that fails is the last one tried: what comes after it in the listing stays. */
  lemma {:induction false} FailedDeleteEnds(zone: seq<ZoneRecord>, listed: seq<ZoneRecord>, chosen: Chooser,
                                            answers: nat -> DeleteAnswer, k: nat)
    requires k < |listed| && chosen(listed[k]) && answers(listed[k].id).Kept? && IdsDiffer(listed)
    ensures var (after, ok) := DeleteListed(zone, listed, chosen, answers);
            && !ok
            && (forall j | k < j < |listed| && listed[j] in zone :: listed[j] in after)
            && (answers(listed[k].id) == Kept(false) && listed[k] in zone ==> listed[k] in after)
    decreases |listed|
  {
    var first, rest := listed[0], listed[1..];
    assert forall j | 0 < j < |listed| :: listed[j] == rest[j - 1] && listed[j].id != first.id;
    if k > 0 {
      if !chosen(first) {
        FailedDeleteEnds(zone, rest, chosen, answers, k - 1);
      } else if answers(first.id) == Removed {
        FailedDeleteEnds(Without(zone, first.id), rest, chosen, answers, k - 1);
      }
    }
  }

  lemma ListedAreThere(zone: seq<ZoneRecord>, listed: seq<ZoneRecord>)
    requires IdsDiffer(zone) && forall r | r in listed :: r in zone
    ensures forall r, q | r in zone && q in listed && r.id == q.id :: r == q
  {}

  /** Some purpose makes the remark one of this service on this plane. */
  ghost predicate Belongs(r: ZoneRecord, plane: string, service: string) {
    exists purpose: string :: Trim(r.remark) == Remark(service, plane, purpose)
  }

  /** `DeleteRecord` removes nothing but records made for the same plane, service and purpose;
      when it succeeds it has removed all of those that it was shown and whose value fits. */
  lemma DeleteRecordTouchesOwn(zone: seq<ZoneRecord>, appeared: seq<ZoneRecord>, record: Managed, subdomain: string,
                               clean: Cleaner, answers: nat -> DeleteAnswer)
    requires IdsDiffer(zone + appeared)
    ensures var all, listed := zone + appeared, Listed(zone, subdomain, record.kind);
            var (after, ok) := RecordDeleted(zone, appeared, record, subdomain, clean, answers);
            && (forall r | r in after :: r in all)
            && (forall r | r in all && r !in after ::
                  && Trim(r.remark) == Remark(Trim(record.service), Trim(record.plane), Trim(record.purpose))
                  && (record.content == "" || clean(record.kind, r.content) == record.content))
            && (ok ==> forall r | r in all :: r in after <==> !(r in listed && SameRecord(r, record, clean)))
  {
    var all, listed := zone + appeared, Listed(zone, subdomain, record.kind);
    assert forall r | r in listed :: r in Matching(zone, subdomain, record.kind);
    ListedAreThere(all, listed);
    DeleteListedKeeps(all, listed, r => SameRecord(r, record, clean), answers);
  }

  /** If the page holds them all, a success leaves none of the records at that name and of that
      kind that were made for the same plane, service and purpose and have the value, if one is
      given. */
  lemma DeletedRecordIsGone(zone: seq<ZoneRecord>, record: Managed, subdomain: string, clean: Cleaner,
                            answers: nat -> DeleteAnswer)
    requires IdsDiffer(zone) && |Matching(zone, subdomain, record.kind)| <= 100
    requires RecordDeleted(zone, [], record, subdomain, clean, answers).1
    ensures forall r | r in zone ::
              r in RecordDeleted(zone, [], record, subdomain, clean, answers).0
              <==> !(&& r.subdomain == subdomain && r.kind == record.kind
                     && Trim(r.remark) == Remark(Trim(record.service), Trim(record.plane), Trim(record.purpose))
                     && (record.content == "" || clean(record.kind, r.content) == record.content))
  {
    assert zone + [] == zone;
    DeleteRecordTouchesOwn(zone, [], record, subdomain, clean, answers);
  }

  /** `DeleteServiceRecords` removes nothing that belongs to another plane or service. */
  lemma DeleteServiceTouchesOwn(zone: seq<ZoneRecord>, appeared: seq<ZoneRecord>, plane: string, service: string,
                                purpose: string, answers: nat -> DeleteAnswer)
    requires IdsDiffer(zone + appeared)
    ensures var all := zone + appeared;
            var (after, ok) := ServiceDeleted(zone, appeared, plane, service, purpose, answers);
            && (forall r | r in after :: r in all)
            && (forall r | r in all && !Belongs(r, plane, service) :: r in after)
            && (ok ==> forall r | r in all ::
                  r in after <==> !(r in First(zone, DOMAIN_LIMIT) && OfService(r, plane, service, purpose)))
  {
    ListedAreThere(zone + appeared, First(zone, DOMAIN_LIMIT));
    DeleteListedKeeps(zone + appeared, First(zone, DOMAIN_LIMIT), r => OfService(r, plane, service, purpose), answers);
  }

  /** With a purpose, a success deletes exactly the records of that purpose on the page. */
  lemma PurposeGoesIff(zone: seq<ZoneRecord>, appeared: seq<ZoneRecord>, plane: string, service: string,
                       purpose: string, answers: nat -> DeleteAnswer, k: nat)
    requires IdsDiffer(zone + appeared) && purpose != "" && k < |zone|
    requires ServiceDeleted(zone, appeared, plane, service, purpose, answers).1
    ensures zone[k] !in ServiceDeleted(zone, appeared, plane, service, purpose, answers).0
       <==> && k < 3000 && zone[k].id != 0 && zone[k].subdomain != "" && zone[k].kind != ""
            && Trim(zone[k].remark) == Remark(service, plane, purpose)
  {
    DeleteServiceTouchesOwn(zone, appeared, plane, service, purpose, answers);
    BeyondPage(zone, appeared);
    assert zone[k] in zone + appeared;
  }

  /** A record that the client made for this service on this plane, for whatever purpose. */
  ghost predicate MadeFor(r: ZoneRecord, plane: string, service: string) {
    && HasAddress(r)
    && exists purpose: string :: purpose != "" && Trimmed(purpose) && Trim(r.remark) == Remark(service, plane, purpose)
  }

  /** The purpose is one word, so that it can be read back. */
  ghost predicate NamesPurpose(r: ZoneRecord, plane: string, service: string) {
    exists purpose: string :: purpose != "" && NoBlanks(purpose) && Trim(r.remark) == Remark(service, plane, purpose)
  }

  lemma PurposeIsOneWord(plane: string, service: string, purpose: string)
    requires NoBlanks(plane) && NoBlanks(service) && purpose != "" && Trimmed(purpose)
    ensures var remark := Remark(service, plane, purpose);
            remark == Remark(service, plane, Trim(PurposeOf(Fields(remark)))) <==> NoBlanks(purpose)
  {
    RemarkIsTrimmed(service, plane, purpose);
    PurposeOfRemark(service, plane, purpose);
    WordHasNoBlanks(purpose);
    NoBlanksIsTrimmed(Word(purpose));
    RemarkIsInjective(service, plane, purpose, service, plane, Word(purpose));
  }

  /** Without a purpose, a record of the service is chosen exactly if its purpose is one word. */
  lemma ChosenIffOneWord(r: ZoneRecord, plane: string, service: string)
    requires NoBlanks(plane) && NoBlanks(service) && MadeFor(r, plane, service)
    ensures OfService(r, plane, service, "") <==> NamesPurpose(r, plane, service)
  {
    var purpose: string :| purpose != "" && Trimmed(purpose) && Trim(r.remark) == Remark(service, plane, purpose);
    PurposeIsOneWord(plane, service, purpose);
    if other: string :| other != "" && NoBlanks(other) && Trim(r.remark) == Remark(service, plane, other) {
      RemarkIsInjective(service, plane, purpose, service, plane, other);
    }
  }

  lemma BeyondPage(zone: seq<ZoneRecord>, appeared: seq<ZoneRecord>)
    requires IdsDiffer(zone + appeared)
    ensures forall k | 0 <= k < |zone| :: zone[k] in First(zone, DOMAIN_LIMIT) <==> k < DOMAIN_LIMIT
    ensures forall r | r in appeared :: r !in First(zone, DOMAIN_LIMIT)
  {
    var page, all := First(zone, DOMAIN_LIMIT), zone + appeared;
    assert forall j | 0 <= j < |zone| :: zone[j] == all[j];
    assert forall j | 0 <= j < |page| :: page[j] == zone[j];
    assert forall j | 0 <= j < |appeared| :: appeared[j] == all[|zone| + j];
  }

  /** Without a purpose all records of a service go — exactly when each lay on the first page of
      the listing with a purpose of one word, and nobody added another one after the listing. */
  lemma AllOfServiceGoIff(zone: seq<ZoneRecord>, appeared: seq<ZoneRecord>, plane: string, service: string,
                          answers: nat -> DeleteAnswer)
    requires IdsDiffer(zone + appeared) && NoBlanks(plane) && NoBlanks(service)
    requires ServiceDeleted(zone, appeared, plane, service, "", answers).1
    ensures var after := ServiceDeleted(zone, appeared, plane, service, "", answers).0;
            (forall r | r in after :: !MadeFor(r, plane, service))
            <==> (&& (forall k | 0 <= k < |zone| && MadeFor(zone[k], plane, service) ::
                        k < 3000 && NamesPurpose(zone[k], plane, service))
                  && forall r | r in appeared :: !MadeFor(r, plane, service))
  {
    var after := ServiceDeleted(zone, appeared, plane, service, "", answers).0;
    DeleteServiceTouchesOwn(zone, appeared, plane, service, "", answers);
    BeyondPage(zone, appeared);
    forall k | 0 <= k < |zone| && MadeFor(zone[k], plane, service)
      ensures zone[k] in after <==> !(k < DOMAIN_LIMIT && NamesPurpose(zone[k], plane, service))
    {
      assert zone[k] in zone + appeared;
      ChosenIffOneWord(zone[k], plane, service);
    }
    forall r | r in appeared ensures r in after {
      assert r in zone + appeared;
    }
  }

  lemma {:induction false} AllRemoved(zone: seq<ZoneRecord>, listed: seq<ZoneRecord>, chosen: Chooser)
    ensures DeleteListed(zone, listed, chosen, id => Removed).1
    decreases |listed|
  {
    if listed != [] {
      AllRemoved(if chosen(listed[0]) then Without(zone, listed[0].id) else zone, listed[1..], chosen);
    }
  }

  /** Every delete succeeds, and yet a record of the service that lies beyond the page is left. */
  lemma BeyondPageStays(zone: seq<ZoneRecord>, plane: string, service: string)
    requires IdsDiffer(zone) && NoBlanks(plane) && NoBlanks(service)
    requires |zone| > DOMAIN_LIMIT && MadeFor(zone[DOMAIN_LIMIT], plane, service)
    ensures var (after, ok) := ServiceDeleted(zone, [], plane, service, "", id => Removed);
            ok && exists r :: r in after && MadeFor(r, plane, service)
  {
    assert zone + [] == zone;
    AllRemoved(zone, First(zone, DOMAIN_LIMIT), r => OfService(r, plane, service, ""));
    AllOfServiceGoIff(zone, [], plane, service, id => Removed);
  }

  const ONE_OF_MANY := Remark("s", "p", "frontdoor_cname")

  /** A zone with one record of service "s" on plane "p" more than fits on the page. */
  function CrowdedZone(): (zone: seq<ZoneRecord>)
    ensures |zone| == DOMAIN_LIMIT + 1
    ensures forall k | 0 <= k < |zone| :: zone[k] == ZoneRecord(k + 1, "www", "CNAME", "cdn", ONE_OF_MANY)
  {
    seq(DOMAIN_LIMIT + 1, k requires 0 <= k => ZoneRecord(k + 1, "www", "CNAME", "cdn", ONE_OF_MANY))
  }

  lemma ManyAreMade(r: ZoneRecord)
    requires HasAddress(r) && r.remark == ONE_OF_MANY
    ensures MadeFor(r, "p", "s")
  {
    var purpose := "frontdoor_cname";
    assert purpose[0] == 'f' && purpose[|purpose| - 1] == 'e';
    RemarkIsTrimmed("s", "p", purpose);
  }

  lemma CrowdedZoneKeepsOne()
    ensures exists r :: r in ServiceDeleted(CrowdedZone(), [], "p", "s", "", id => Removed).0 && MadeFor(r, "p", "s")
  {
    var zone := CrowdedZone();
    ManyAreMade(zone[DOMAIN_LIMIT]);
    BeyondPageStays(zone, "p", "s");
  }

  // ---- Ensuring twice ----

  ghost predicate Idempotent(clean: Cleaner) {
    forall kind, content :: clean(kind, clean(kind, content)) == clean(kind, content)
  }

  lemma {:induction false} MatchingModified(zone: seq<ZoneRecord>, subdomain: string, kind: string,
                                            id: nat, content: string, remark: string)
    ensures Matching(Modify(zone, id, content, remark), subdomain, kind)
         == Modify(Matching(zone, subdomain, kind), id, content, remark)
  {
    if zone != [] {
      MatchingModified(zone[1..], subdomain, kind, id, content, remark);
    }
  }

  lemma {:induction false} MatchingConcat(a: seq<ZoneRecord>, b: seq<ZoneRecord>, subdomain: string, kind: string)
    ensures Matching(a + b, subdomain, kind) == Matching(a, subdomain, kind) + Matching(b, subdomain, kind)
  {
    if a == [] {
      assert a + b == b;
    } else {
      assert (a + b)[1..] == a[1..] + b;
      MatchingConcat(a[1..], b, subdomain, kind);
    }
  }

  lemma NormalizedTwice(given: Managed, clean: Cleaner)
    ensures ManagedRemark(Normalized(given, clean)) == ManagedRemark(given)
    ensures Complete(Normalized(given, clean)) ==>
              Trim(ManagedRemark(given)) == ManagedRemark(given)
  {
    TrimIsTrimmed(given.plane);
    TrimIsTrimmed(given.service);
    TrimIsTrimmed(given.purpose);
    TrimIsTrimmed(Trim(given.plane));
    TrimIsTrimmed(Trim(given.service));
    TrimIsTrimmed(Trim(given.purpose));
    if Complete(Normalized(given, clean)) {
      RemarkIsTrimmed(Trim(given.service), Trim(given.plane), Trim(given.purpose));
    }
  }

  /** The record is in place: first in its listing, with the value asked for. */
  predicate InPlace(zone: seq<ZoneRecord>, record: Managed, subdomain: string, clean: Cleaner) {
    var listed := Listed(zone, subdomain, record.kind);
    listed != [] && UpToDate(listed[0], record, clean)
  }

  ghost predicate Canonical(record: Managed, clean: Cleaner) {
    && clean(record.kind, record.content) == record.content
    && Trim(ManagedRemark(record)) == ManagedRemark(record)
  }

  lemma AgainstSettles(zone: seq<ZoneRecord>, record: Managed, subdomain: string, clean: Cleaner, a: Answers)
    requires Canonical(record, clean)
    requires EnsureAgainst(zone, record, Listed(zone, subdomain, record.kind), clean, a).1 == Settled
    ensures InPlace(EnsureAgainst(zone, record, Listed(zone, subdomain, record.kind), clean, a).0,
                    record, subdomain, clean)
  {
    var matching := Matching(zone, subdomain, record.kind);
    MatchingModified(zone, subdomain, record.kind, matching[0].id, record.content, ManagedRemark(record));
  }

  /** What others added meanwhile does not come before the new record, unless it is the same. */
  predicate FirstStaysOwn(zone: seq<ZoneRecord>, record: Managed, subdomain: string, clean: Cleaner, a: Answers) {
    var theirs := Listed(a.appeared, subdomain, record.kind);
    Listed(zone, subdomain, record.kind) == [] && a.create == Made && theirs != [] ==>
      UpToDate(theirs[0], record, clean)
  }

  lemma MadeSettlesIff(zone: seq<ZoneRecord>, record: Managed, subdomain: string, clean: Cleaner, a: Answers)
    requires Canonical(record, clean) && Listed(zone, subdomain, record.kind) == [] && a.create == Made
    ensures InPlace(zone + a.appeared + [NewRecord(record, subdomain, a.newId)], record, subdomain, clean)
       <==> FirstStaysOwn(zone, record, subdomain, clean, a)
  {
    var kind, made := record.kind, [NewRecord(record, subdomain, a.newId)];
    assert made[1..] == [];
    assert Matching(made, subdomain, kind) == made;
    MatchingConcat(zone, a.appeared, subdomain, kind);
    MatchingConcat(zone + a.appeared, made, subdomain, kind);
    assert [] + Matching(a.appeared, subdomain, kind) == Matching(a.appeared, subdomain, kind);
  }

  lemma NormalizedIsCanonical(given: Managed, clean: Cleaner)
    requires Idempotent(clean) && Complete(Normalized(given, clean))
    ensures Canonical(Normalized(given, clean), clean)
  {
    NormalizedTwice(given, clean);
  }

  lemma EnsureIs(zone: seq<ZoneRecord>, domain: string, clean: Cleaner, given: Managed, a: Answers)
    requires Ensure(zone, domain, clean, given, a).1
    ensures var record := Normalized(given, clean);
            var subdomain := SubdomainOf(record.host, domain);
            && Complete(record) && subdomain.Some?
            && var listed := Listed(zone, subdomain.value, record.kind);
               if listed == [] then
                 Ensure(zone, domain, clean, given, a) == Create(zone + a.appeared, record, subdomain.value, clean, a)
               else
                 && EnsureAgainst(zone, record, listed, clean, a).1 == Settled
                 && Ensure(zone, domain, clean, given, a).0 == EnsureAgainst(zone, record, listed, clean, a).0
  {}

  lemma CreateSettlesIff(zone: seq<ZoneRecord>, record: Managed, subdomain: string, clean: Cleaner, a: Answers)
    requires Canonical(record, clean) && Listed(zone, subdomain, record.kind) == []
    requires Create(zone + a.appeared, record, subdomain, clean, a).1
    ensures InPlace(Create(zone + a.appeared, record, subdomain, clean, a).0, record, subdomain, clean)
       <==> FirstStaysOwn(zone, record, subdomain, clean, a)
  {
    if a.create == Made {
      MadeSettlesIff(zone, record, subdomain, clean, a);
    } else {
      AgainstSettles(zone + a.appeared, record, subdomain, clean, a);
    }
  }

  /** A success leaves the record in place, first in its listing with value and remark — exactly
      when nobody put another record before it between the list and the create. */
  lemma EnsureSettlesIff(zone: seq<ZoneRecord>, domain: string, clean: Cleaner, given: Managed, a: Answers)
    requires Idempotent(clean) && Ensure(zone, domain, clean, given, a).1
    ensures var record := Normalized(given, clean);
            && SubdomainOf(record.host, domain).Some?
            && var subdomain := SubdomainOf(record.host, domain).value;
               InPlace(Ensure(zone, domain, clean, given, a).0, record, subdomain, clean)
               <==> FirstStaysOwn(zone, record, subdomain, clean, a)
  {
    var record := Normalized(given, clean);
    EnsureIs(zone, domain, clean, given, a);
    NormalizedIsCanonical(given, clean);
    var subdomain := SubdomainOf(record.host, domain).value;
    if Listed(zone, subdomain, record.kind) == [] {
      CreateSettlesIff(zone, record, subdomain, clean, a);
    } else {
      AgainstSettles(zone, record, subdomain, clean, a);
    }
  }

  lemma ModifyChanges(zone: seq<ZoneRecord>, r: ZoneRecord, content: string, remark: string)
    requires r in zone && r.content != content
    ensures Modify(zone, r.id, content, remark) != zone
  {
    var k :| 0 <= k < |zone| && zone[k] == r;
    assert Modify(zone, r.id, content, remark)[k].content == content;
  }

  /** With something in its listing, a record is in place exactly when ensuring it changes
      nothing and succeeds. */
  lemma InPlaceIff(zone: seq<ZoneRecord>, domain: string, clean: Cleaner, given: Managed, b: Answers)
    requires Idempotent(clean) && Complete(Normalized(given, clean)) && !b.listFails
    requires SubdomainOf(given.host, domain).Some?
    requires Listed(zone, SubdomainOf(given.host, domain).value, given.kind) != []
    ensures Ensure(zone, domain, clean, given, b) == (zone, true)
       <==> InPlace(zone, Normalized(given, clean), SubdomainOf(given.host, domain).value, clean)
  {
    var record := Normalized(given, clean);
    var subdomain := SubdomainOf(given.host, domain).value;
    var r := Listed(zone, subdomain, record.kind)[0];
    assert r in Matching(zone, subdomain, record.kind);
    NormalizedIsCanonical(given, clean);
    if !UpToDate(r, record, clean) && OwnedBy(r.remark, record) {
      ModifyChanges(zone, r, record.content, ManagedRemark(record));
    }
  }

  lemma AgainstIsListed(zone: seq<ZoneRecord>, record: Managed, subdomain: string, clean: Cleaner, a: Answers)
    requires EnsureAgainst(zone, record, Listed(zone, subdomain, record.kind), clean, a).1 == Settled
    ensures Listed(EnsureAgainst(zone, record, Listed(zone, subdomain, record.kind), clean, a).0,
                   subdomain, record.kind) != []
  {
    var listed := Listed(zone, subdomain, record.kind);
    MatchingModified(zone, subdomain, record.kind, listed[0].id, record.content, ManagedRemark(record));
  }

  lemma MadeIsListed(zone: seq<ZoneRecord>, record: Managed, subdomain: string, id: nat)
    ensures Listed(zone + [NewRecord(record, subdomain, id)], subdomain, record.kind) != []
  {
    var all := zone + [NewRecord(record, subdomain, id)];
    assert all[|zone|] in all;
    assert NewRecord(record, subdomain, id) in Matching(all, subdomain, record.kind);
  }

  lemma SuccessIsListed(zone: seq<ZoneRecord>, domain: string, clean: Cleaner, given: Managed, a: Answers)
    requires Ensure(zone, domain, clean, given, a).1
    ensures var record := Normalized(given, clean);
            && SubdomainOf(record.host, domain).Some?
            && Listed(Ensure(zone, domain, clean, given, a).0,
                      SubdomainOf(record.host, domain).value, record.kind) != []
  {
    EnsureIs(zone, domain, clean, given, a);
    var record := Normalized(given, clean);
    var subdomain := SubdomainOf(record.host, domain).value;
    if Listed(zone, subdomain, record.kind) != [] {
      AgainstIsListed(zone, record, subdomain, clean, a);
    } else if a.create == Made {
      MadeIsListed(zone + a.appeared, record, subdomain, a.newId);
    } else {
      AgainstIsListed(zone + a.appeared, record, subdomain, clean, a);
    }
  }

  /** To ensure a record again after a success changes nothing and succeeds — under exactly the
      same condition. */
  lemma EnsureTwiceIff(zone: seq<ZoneRecord>, domain: string, clean: Cleaner, given: Managed, a: Answers, b: Answers)
    requires Idempotent(clean) && Ensure(zone, domain, clean, given, a).1 && !b.listFails
    ensures var after, record := Ensure(zone, domain, clean, given, a).0, Normalized(given, clean);
            && SubdomainOf(record.host, domain).Some?
            && (Ensure(after, domain, clean, given, b) == (after, true)
                <==> FirstStaysOwn(zone, record, SubdomainOf(record.host, domain).value, clean, a))
  {
    EnsureIs(zone, domain, clean, given, a);
    EnsureSettlesIff(zone, domain, clean, given, a);
    SuccessIsListed(zone, domain, clean, given, a);
    InPlaceIff(Ensure(zone, domain, clean, given, a).0, domain, clean, given, b);
  }

  /** A first record that someone else made is left alone, and the caller is told. */
  lemma ForeignRecordStays(zone: seq<ZoneRecord>, domain: string, clean: Cleaner, given: Managed, a: Answers)
    requires var record := Normalized(given, clean);
             && SubdomainOf(record.host, domain).Some?
             && var listed := Listed(zone, SubdomainOf(record.host, domain).value, record.kind);
                && listed != []
                && Trim(listed[0].remark) != Remark(record.service, record.plane, record.purpose)
    ensures Ensure(zone, domain, clean, given, a) == (zone, false)
  {
    TrimIsTrimmed(given.service);
    TrimIsTrimmed(given.plane);
    TrimIsTrimmed(given.purpose);
    TrimIsTrimmed(Trim(given.service));
    TrimIsTrimmed(Trim(given.plane));
    TrimIsTrimmed(Trim(given.purpose));
  }

  /** A first record of one's own is left alone if its value is the one asked for, in whatever
      form it is written; otherwise it is given that value, in canonical form. */
  lemma OwnRecordSettled(zone: seq<ZoneRecord>, domain: string, clean: Cleaner, given: Managed, a: Answers)
    requires Complete(Normalized(given, clean)) && SubdomainOf(given.host, domain).Some? && !a.listFails
    requires var listed := Listed(zone, SubdomainOf(given.host, domain).value, given.kind);
             && listed != []
             && Trim(listed[0].remark) == Remark(Trim(given.service), Trim(given.plane), Trim(given.purpose))
    ensures
      var r := Listed(zone, SubdomainOf(given.host, domain).value, given.kind)[0];
      var value := clean(given.kind, given.content);
      && (clean(given.kind, r.content) == value ==> Ensure(zone, domain, clean, given, a) == (zone, true))
      && (clean(given.kind, r.content) != value && !a.modifyFails ==>
            Ensure(zone, domain, clean, given, a)
            == (Modify(zone, r.id, value, Remark(Trim(given.service), Trim(given.plane), Trim(given.purpose))), true))
  {
    NormalizedTwice(given, clean);
  }

  /** A record without plane, service, host, kind or purpose is refused, and nothing is touched. */
  lemma BlankRecordRefused(zone: seq<ZoneRecord>, domain: string, clean: Cleaner, given: Managed, a: Answers)
    requires Trim(given.plane) == "" || Trim(given.service) == "" || given.host == "" || given.kind == ""
          || Trim(given.purpose) == ""
    ensures Ensure(zone, domain, clean, given, a) == (zone, false)
  {}

  // ---- Made and taken away again ----

  lemma {:induction false} WithoutLast(zone: seq<ZoneRecord>, last: ZoneRecord)
    requires forall r | r in zone :: r.id != last.id
    ensures Without(zone + [last], last.id) == zone
  {
    if zone == [] {
      assert [last][1..] == [];
    } else {
      assert (zone + [last])[1..] == zone[1..] + [last];
      WithoutLast(zone[1..], last);
    }
  }

  lemma MadeIsAlone(zone: seq<ZoneRecord>, record: Managed, subdomain: string, id: nat)
    requires Matching(zone, subdomain, record.kind) == []
    ensures Listed(zone + [NewRecord(record, subdomain, id)], subdomain, record.kind)
         == [NewRecord(record, subdomain, id)]
  {
    var made := [NewRecord(record, subdomain, id)];
    assert made[1..] == [];
    assert Matching(made, subdomain, record.kind) == made;
    MatchingConcat(zone, made, subdomain, record.kind);
  }

  lemma EnsureMakes(zone: seq<ZoneRecord>, domain: string, clean: Cleaner, given: Managed, a: Answers)
    requires Ensure(zone, domain, clean, given, a).1 && a.create == Made && a.appeared == []
    requires SubdomainOf(given.host, domain).Some?
    requires Matching(zone, SubdomainOf(given.host, domain).value, given.kind) == []
    ensures Complete(Normalized(given, clean))
    ensures Ensure(zone, domain, clean, given, a).0
         == zone + [NewRecord(Normalized(given, clean), SubdomainOf(given.host, domain).value, a.newId)]
  {
    EnsureIs(zone, domain, clean, given, a);
    assert zone + [] == zone;
  }

  lemma DeleteOnly(zone: seq<ZoneRecord>, r: ZoneRecord, chosen: Chooser, answers: nat -> DeleteAnswer)
    requires chosen(r) && answers(r.id) == Removed
    ensures DeleteListed(zone, [r], chosen, answers) == (Without(zone, r.id), true)
  {
    assert [r][1..] == [];
  }

  lemma OwnRecordDeleted(zone: seq<ZoneRecord>, record: Managed, subdomain: string, id: nat, clean: Cleaner,
                         answers: nat -> DeleteAnswer)
    requires Canonical(record, clean) && answers(id) == Removed
    requires Matching(zone, subdomain, record.kind) == [] && forall r | r in zone :: r.id != id
    ensures RecordDeleted(zone + [NewRecord(record, subdomain, id)], [], record, subdomain, clean, answers)
         == (zone, true)
  {
    var made := NewRecord(record, subdomain, id);
    assert zone + [made] + [] == zone + [made];
    MadeIsAlone(zone, record, subdomain, id);
    WithoutLast(zone, made);
    assert SameRecord(made, record, clean);
    DeleteOnly(zone + [made], made, r => SameRecord(r, record, clean), answers);
  }

  /** The round trip: a record that `EnsureRecord` made, `DeleteRecord` of the same record takes
      away again, and the zone is what it was. */
  lemma MadeThenDeleted(zone: seq<ZoneRecord>, domain: string, clean: Cleaner, given: Managed, a: Answers,
                        answers: nat -> DeleteAnswer)
    requires Idempotent(clean) && Ensure(zone, domain, clean, given, a).1
    requires a.create == Made && a.appeared == [] && answers(a.newId) == Removed
    requires SubdomainOf(given.host, domain).Some?
    requires Matching(zone, SubdomainOf(given.host, domain).value, given.kind) == []
    requires forall r | r in zone :: r.id != a.newId
    ensures RecordDeleted(Ensure(zone, domain, clean, given, a).0, [], Normalized(given, clean),
                          SubdomainOf(given.host, domain).value, clean, answers) == (zone, true)
  {
    EnsureMakes(zone, domain, clean, given, a);
    NormalizedIsCanonical(given, clean);
    OwnRecordDeleted(zone, Normalized(given, clean), SubdomainOf(given.host, domain).value, a.newId, clean, answers);
  }

  lemma ManagedRemarkIs(given: Managed, clean: Cleaner)
    requires Complete(Normalized(given, clean))
    ensures Trim(ManagedRemark(Normalized(given, clean)))
         == Remark(Trim(given.service), Trim(given.plane), Trim(given.purpose))
  {
    NormalizedTwice(given, clean);
  }

  /** A record is one of the service's, asked for its purpose, or for none if that is one word. */
  lemma ChosenForService(r: ZoneRecord, plane: string, service: string, own: string, purpose: string)
    requires HasAddress(r) && own != "" && Trimmed(own) && Trim(r.remark) == Remark(service, plane, own)
    requires purpose == own || (purpose == "" && NoBlanks(own) && NoBlanks(plane) && NoBlanks(service))
    ensures OfService(r, plane, service, purpose)
  {
    if purpose == "" {
      ChosenIffOneWord(r, plane, service);
    }
  }

  lemma OwnRecordServiceDeleted(zone: seq<ZoneRecord>, made: ZoneRecord, plane: string, service: string,
                                purpose: string, answers: nat -> DeleteAnswer)
    requires IdsDiffer(zone) && |zone| < 3000 && forall r | r in zone :: r.id != made.id
    requires OfService(made, plane, service, purpose)
    requires ServiceDeleted(zone + [made], [], plane, service, purpose, answers).1
    ensures forall r | r in ServiceDeleted(zone + [made], [], plane, service, purpose, answers).0 :: r.id != made.id
  {
    var all := zone + [made];
    assert all + [] == all && all[|zone|] == made && made in all;
    DeleteServiceTouchesOwn(all, [], plane, service, purpose, answers);
    assert First(all, DOMAIN_LIMIT) == all;
  }

  /** And `DeleteServiceRecords` takes it away, asked for its purpose, or for none if the purpose
      is one word. */
  lemma MadeThenServiceDeleted(zone: seq<ZoneRecord>, domain: string, clean: Cleaner, given: Managed, a: Answers,
                               purpose: string, answers: nat -> DeleteAnswer)
    requires Ensure(zone, domain, clean, given, a).1 && a.create == Made && a.appeared == [] && a.newId != 0
    requires SubdomainOf(given.host, domain).Some? && SubdomainOf(given.host, domain).value != ""
    requires Matching(zone, SubdomainOf(given.host, domain).value, given.kind) == []
    requires IdsDiffer(zone) && |zone| < 3000 && forall r | r in zone :: r.id != a.newId
    requires || purpose == Trim(given.purpose)
             || (&& purpose == "" && NoBlanks(Trim(given.purpose))
                 && NoBlanks(Trim(given.plane)) && NoBlanks(Trim(given.service)))
    requires ServiceDeleted(Ensure(zone, domain, clean, given, a).0, [], Trim(given.plane), Trim(given.service),
                            purpose, answers).1
    ensures forall r | r in ServiceDeleted(Ensure(zone, domain, clean, given, a).0, [], Trim(given.plane),
                                           Trim(given.service), purpose, answers).0 :: r.id != a.newId
  {
    var plane, service := Trim(given.plane), Trim(given.service);
    var made := NewRecord(Normalized(given, clean), SubdomainOf(given.host, domain).value, a.newId);
    EnsureMakes(zone, domain, clean, given, a);
    ManagedRemarkIs(given, clean);
    TrimIsTrimmed(given.purpose);
    ChosenForService(made, plane, service, Trim(given.purpose), purpose);
    OwnRecordServiceDeleted(zone, made, plane, service, purpose, answers);
  }
}
