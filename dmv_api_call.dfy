/**
 * The DMV Lambda: it parses the driver's name and licence number out of the extraction model's
 * answer, makes up a DMV record for the licence, writes the record into the underwriting
 * validation prompt and returns the prompt.
 */
module DmvApiCall {
  import opened Wrappers
  import opened Json
  import opened Strings
  import opened LambdaEvent

  const VIOLATIONS: seq<string> := [
    "speeding",
    "reckless_driving",
    "failure_to_stop",
    "driving_under_influence",
    "no_valid_license",
    "no_insurance",
    "expired_registration",
    "improper_lane_change",
    "running_red_light",
    "distracted_driving"
  ]

  const LICENSE_STATUSES: seq<string> := ["full_license", "learners_permit"]

  const ERROR_BODY := "An error occurred while processing your request."

  /** The placeholder in the prompt template and the block that replaces it. */
  const DRIVER_SLOT := "\n<driver>\n</driver>"

  function DriverBlock(info: string): string
  {
    "\n<driver>\n" + info + "\n</driver>"
  }

  /** The values a DMV record may hold: strings, lists of strings and booleans. */
  datatype FieldValue = Text(s: string) | List(items: seq<string>) | Flag(b: bool)

  /** A dict, as its entries in insertion order. */
  type Record = seq<(string, FieldValue)>

  // ---------------------------------------------------------------------------------------
  // generate_random_dmv_record

  /** The violations `random.sample` may return, or the `["none"]` that replaces an empty sample. */
  predicate PlausibleViolations(v: seq<string>)
  {
    || v == ["none"]
    || (&& 1 <= |v| <= 3
        && (forall i | 0 <= i < |v| :: v[i] in VIOLATIONS)
        && (forall i, j | 0 <= i < j < |v| :: v[i] != v[j]))
  }

  /** The records `generate_random_dmv_record` can return. */
  predicate IsGeneratedRecord(record: Record)
  {
    && |record| == 2
    && record[0].0 == "license_status" && record[0].1.Text? && record[0].1.s in LICENSE_STATUSES
    && record[1].0 == "violations" && record[1].1.List? && PlausibleViolations(record[1].1.items)
  }

  lemma ViolationsDistinct()
    ensures forall i, j | 0 <= i < |VIOLATIONS| && 0 <= j < |VIOLATIONS| && i != j :: VIOLATIONS[i] != VIOLATIONS[j]
  {
  }

  /**
   * `generate_random_dmv_record(license_id)`. The pseudo-random choices are free choices here:
   * how many violations (0 to 3), which ones (distinct positions of `VIOLATIONS`, as
   * `random.sample` draws without replacement) and the licence status. The licence id is not
   * used.
   */
  method GenerateRandomDmvRecord(licenseId: string) returns (record: Record)
    ensures IsGeneratedRecord(record)
  {
    var numViolations :| 0 <= numViolations <= 3;
    // Each draw picks a position among those not drawn yet.
    var first :| 0 <= first < 10;
    var draw2 :| 0 <= draw2 < 9;
    var second := if draw2 < first then draw2 else draw2 + 1;
    var draw3 :| 0 <= draw3 < 8;
    var low, high := if first < second then first else second, if first < second then second else first;
    var third := if draw3 < low then draw3 else if draw3 + 1 < high then draw3 + 1 else draw3 + 2;
    var violations := [VIOLATIONS[first], VIOLATIONS[second], VIOLATIONS[third]][..numViolations];
    ViolationsDistinct();
    assert VIOLATIONS[first] != VIOLATIONS[second] && VIOLATIONS[first] != VIOLATIONS[third]
      && VIOLATIONS[second] != VIOLATIONS[third];
    if |violations| == 0 {
      violations := ["none"];
    }
    var choice :| 0 <= choice < |LICENSE_STATUSES|;
    record := [("license_status", Text(LICENSE_STATUSES[choice])), ("violations", List(violations))];
  }

  // ---------------------------------------------------------------------------------------
  // append_dmv_record_to_prompt

  /** A value as the loop renders it: lists joined with commas, booleans through `str`. */
  function Rendered(v: FieldValue): string
  {
    match v
    case Text(s) => s
    case List(items) => Join(",", items)
    case Flag(b) => if b then "True" else "False"
  }

  /** The `f"{key}:{value}"` entries of a record, in its order. */
  function Entries(record: Record): (entries: seq<string>)
    ensures |entries| == |record|
  {
    if record == [] then []
    else Entries(record[..|record| - 1]) + [record[|record| - 1].0 + ":" + Rendered(record[|record| - 1].1)]
  }

  /** The driver line: the entries joined with commas. */
  function DriverInfo(record: Record): string
  {
    Join(",", Entries(record))
  }

  /** `append_dmv_record_to_prompt(dmv_record, prompt)`. */
  method AppendDmvRecordToPrompt(dmvRecord: Record, prompt: string) returns (updatedPrompt: string)
    ensures updatedPrompt == Replace(prompt, DRIVER_SLOT, DriverBlock(DriverInfo(dmvRecord)))
  {
    var driverInfo: seq<string> := [];
    for i := 0 to |dmvRecord|
      invariant driverInfo == Entries(dmvRecord[..i])
    {
      var (key, value) := dmvRecord[i];
      var text: string;
      match value {
        case List(items) => text := Join(",", items);
        case Flag(b) => text := if b then "True" else "False";
        case Text(s) => text := s;
      }
      driverInfo := driverInfo + [key + ":" + text];
      assert dmvRecord[..i + 1][..i] == dmvRecord[..i];
    }
    assert dmvRecord[..|dmvRecord|] == dmvRecord;
    var driverInfoStr := Join(",", driverInfo);
    updatedPrompt := Replace(prompt, DRIVER_SLOT, DriverBlock(driverInfoStr));
  }

  /** A template with one driver placeholder gets the driver block in its place. */
  lemma FillDriverSlotOnce(pre: string, post: string, record: Record)
    requires Split(pre + DRIVER_SLOT + post, DRIVER_SLOT) == [pre, post]
    ensures Replace(pre + DRIVER_SLOT + post, DRIVER_SLOT, DriverBlock(DriverInfo(record)))
              == pre + DriverBlock(DriverInfo(record)) + post
  {
    ReplaceIsJoinOfSplit(pre + DRIVER_SLOT + post, DRIVER_SLOT, DriverBlock(DriverInfo(record)));
  }

  /** A template without the placeholder comes back unchanged: the record is silently dropped. */
  lemma FillDriverSlotAbsent(prompt: string, record: Record)
    requires !Contains(prompt, DRIVER_SLOT)
    ensures Replace(prompt, DRIVER_SLOT, DriverBlock(DriverInfo(record))) == prompt
  {
    ReplaceAbsent(prompt, DRIVER_SLOT, DriverBlock(DriverInfo(record)));
  }

  /**
   * Reading a driver line back: the first comma piece is the status entry, the second starts
   * the violations entry and the rest are further violations.
   */
  function ParseDriverInfo(info: string): Option<Record>
  {
    var pieces := Split(info, ",");
    if |pieces| >= 2 && "license_status:" <= pieces[0] && "violations:" <= pieces[1] then
      Some([("license_status", Text(pieces[0][|"license_status:"|..])),
            ("violations", List([pieces[1][|"violations:"|..]] + pieces[2..]))])
    else None
  }

  lemma NoCommaInViolations()
    ensures forall i | 0 <= i < |VIOLATIONS| :: ',' !in VIOLATIONS[i]
    ensures forall i | 0 <= i < |LICENSE_STATUSES| :: ',' !in LICENSE_STATUSES[i]
    ensures ',' !in "none"
  {
  }

  /** The comma pieces of a generated record's driver line: status entry, first violation entry, the other violations. */
  function DriverPieces(status: string, v: seq<string>): seq<string>
    requires |v| >= 1
  {
    ["license_status:" + status, "violations:" + v[0]] + v[1..]
  }

  /** The entries of a two-entry record. */
  lemma EntriesOfPair(record: Record)
    requires |record| == 2
    ensures Entries(record) == [record[0].0 + ":" + Rendered(record[0].1), record[1].0 + ":" + Rendered(record[1].1)]
  {
    var head := record[..1];
    assert head[..0] == [] && head[0] == record[0];
    assert record[..1] == head;
  }

  /** The driver line of a generated record is the join of its pieces. */
  lemma {:induction false} DriverInfoPieces(record: Record)
    requires IsGeneratedRecord(record)
    ensures DriverInfo(record) == Join(",", DriverPieces(record[0].1.s, record[1].1.items))
  {
    var status := record[0].1.s;
    var v := record[1].1.items;
    EntriesOfPair(record);
    assert "license_status" + ":" == "license_status:" && "violations" + ":" == "violations:";
    var parts := DriverPieces(status, v);
    JoinCons(",", "violations:", v[0], v[1..]);
    assert [v[0]] + v[1..] == v;
    assert parts[1..] == ["violations:" + v[0]] + v[1..];
    var entries := [parts[0], "violations:" + Join(",", v)];
    assert entries[1..] == ["violations:" + Join(",", v)];
    assert Join(",", parts) == Join(",", entries);
  }

  /** No violation a record may hold contains a comma. */
  lemma CommaFreeViolations(v: seq<string>)
    requires PlausibleViolations(v)
    ensures forall i | 0 <= i < |v| :: ',' !in v[i]
  {
    NoCommaInViolations();
    forall i | 0 <= i < |v| ensures ',' !in v[i] {
      if v != ["none"] {
        var j :| 0 <= j < |VIOLATIONS| && VIOLATIONS[j] == v[i];
      }
    }
  }

  /** None of those pieces holds a comma. */
  lemma {:induction false} DriverPiecesCommaFree(record: Record)
    requires IsGeneratedRecord(record)
    ensures var parts := DriverPieces(record[0].1.s, record[1].1.items);
      forall k | 0 <= k < |parts| :: ',' !in parts[k]
  {
    var v := record[1].1.items;
    var parts := DriverPieces(record[0].1.s, v);
    CommaFreeViolations(v);
    assert ',' !in record[0].1.s by {
      NoCommaInViolations();
    }
    assert ',' !in "license_status:" && ',' !in "violations:";
    forall k | 0 <= k < |parts| ensures ',' !in parts[k] {
      if k >= 2 {
        assert parts[k] == v[k - 1];
      }
    }
  }

  /**
   * The driver line of a generated record is unambiguous: no status or violation name holds a
   * comma, so the record can be read back from the prompt.
   */
  lemma {:induction false} DriverInfoRoundTrip(record: Record)
    requires IsGeneratedRecord(record)
    ensures ParseDriverInfo(DriverInfo(record)) == Some(record)
  {
    var status := record[0].1.s;
    var v := record[1].1.items;
    var parts := DriverPieces(status, v);
    DriverInfoPieces(record);
    DriverPiecesCommaFree(record);
    SplitJoin(',', parts);
    assert parts[2..] == v[1..];
    assert "license_status:" <= parts[0] && parts[0][|"license_status:"|..] == status;
    assert "violations:" <= parts[1] && parts[1][|"violations:"|..] == v[0];
    assert [v[0]] + v[1..] == v;
    assert record == [("license_status", Text(status)), ("violations", List(v))];
  }

  // ---------------------------------------------------------------------------------------
  // lambda_handler

  /** `x.split(':')[1].strip()`: the stripped text after the first colon, up to the next one. */
  function AfterColon(field: string): Option<string>
  {
    var parts := Split(field, ":");
    if |parts| < 2 then None else Some(Strip(parts[1]))
  }

  /** First name, last name and licence id from the comma-separated fields of the model's text. */
  function ParseFields(text: string): Option<(string, string, string)>
  {
    var fields := Split(text, ",");
    if |fields| < 3 then None
    else
      var firstName :- AfterColon(fields[0]);
      var lastName :- AfterColon(fields[1]);
      var licenseId :- AfterColon(fields[2]);
      Some((firstName, lastName, licenseId))
  }

  /** The parsing fails exactly when there are fewer than three comma fields or one of them has no colon. */
  lemma ParseFieldsFails(text: string)
    ensures ParseFields(text).None? <==>
      || |Split(text, ",")| < 3
      || !Contains(Split(text, ",")[0], ":")
      || !Contains(Split(text, ",")[1], ":")
      || !Contains(Split(text, ",")[2], ":")
  {
    var fields := Split(text, ",");
    if |fields| >= 3 {
      SplitMoreThanOne(fields[0], ":");
      SplitMoreThanOne(fields[1], ":");
      SplitMoreThanOne(fields[2], ":");
    }
  }

  /** `event['Body']['content'][0]['text']`, then the field parsing. */
  function ParseIdentity(event: Json): Option<(string, string, string)>
  {
    var text :- StrValue(Key(Index(Key(Key(Some(event), "Body"), "content"), 0), "text"));
    ParseFields(text)
  }

  /** Text that neither starts nor ends with whitespace and holds no comma or colon. */
  predicate Plain(x: string)
  {
    && (|x| > 0 ==> !IsSpace(x[0]) && !IsSpace(x[|x| - 1]))
    && ',' !in x && ':' !in x
  }

  /** A `tag: value` field. */
  function Labelled(tag: string, value: string): string
  {
    tag + ": " + value
  }

  /**
   * The model's answer in the expected form, `First Name: ..., Last Name: ..., License: ...`,
   * gives back exactly the three values.
   */
  lemma ParseFieldsRoundTrip(label1: string, first: string, label2: string, last: string, label3: string, license: string)
    requires Plain(label1) && Plain(label2) && Plain(label3)
    requires Plain(first) && Plain(last) && Plain(license)
    ensures ParseFields(Join(",", [Labelled(label1, first), Labelled(label2, last), Labelled(label3, license)]))
              == Some((first, last, license))
  {
    var fields := [Labelled(label1, first), Labelled(label2, last), Labelled(label3, license)];
    SplitJoin(',', fields);
    LabelledField(label1, first);
    LabelledField(label2, last);
    LabelledField(label3, license);
  }

  lemma LabelledField(tag: string, value: string)
    requires Plain(tag) && Plain(value)
    ensures ',' !in Labelled(tag, value)
    ensures AfterColon(Labelled(tag, value)) == Some(value)
  {
    assert Labelled(tag, value) == Join(":", [tag, " " + value]);
    SplitJoin(':', [tag, " " + value]);
    assert " " + value == " " + value + "";
    StripSurrounded(" ", value, "");
  }

  /**
   * `lambda_handler(event, context)` with the prompt template passed in: a malformed event gives
   * 500 and the fixed error text, anything else 200 and the template filled with a generated
   * record.
   */
  method LambdaHandler(event: Json, underwritingValidationPrompt: string) returns (response: Response)
    ensures ParseIdentity(event).None? ==> response == Response(500, ERROR_BODY)
    ensures ParseIdentity(event).Some? ==>
      && response.statusCode == 200
      && exists record :: IsGeneratedRecord(record)
           && response.body == Replace(underwritingValidationPrompt, DRIVER_SLOT, DriverBlock(DriverInfo(record)))
  {
    var identity := ParseIdentity(event);
    if identity.None? {
      return Response(500, ERROR_BODY);
    }
    var (firstName, lastName, licenseId) := identity.value;
    var randomDmvRecord := GenerateRandomDmvRecord(licenseId);
    var underwritingPrompt := AppendDmvRecordToPrompt(randomDmvRecord, underwritingValidationPrompt);
    response := Response(200, underwritingPrompt);
  }
}
