/**
 * `updateParsedDefinition` of the state-machine construct: the deployment identifiers are
 * written into named states of the parsed workflow definition before it is handed to Step
 * Functions. The definition is a tree of JSON values (JSON.parse never shares sub-objects), so
 * updating it in place is modelled as computing the updated tree.
 */
module StateMachineConstruct {
  import opened Wrappers
  import opened Json
  import opened JsAccess
  import S3

  /** The properties the construct reads (the `StateMachineProps` interface). */
  datatype StateMachineProps = StateMachineProps(
    knowledgeBaseId: string,
    classificationModelARN: string,
    nameAndLicenceExtractionModelARN: string,
    finalResultModelARN: string,
    inputS3BucketName: string,
    inputS3BucketClassificationKey: string,
    inputS3BucketExtractNameAndLicenseKey: string,
    inputS3BucketFinalPromptKey: string,
    base64EncodeLambdaArn: string,
    dmvAPICallLambdaArn: string,
    combineRetrievedInformationLambdaArn: string,
    generateFinalPromptLambdaArn: string,
    awsRegion: string)

  // The state names the definition is expected to contain.
  const BASE64_IMAGE_ENCODING := "Base64 Image Encoding"
  const CLASSIFICATION := "Classification"
  const PARALLEL := "Parallel"
  const EXTRACT_NAME_AND_LICENSE := "Extract Name and License #"
  const CALL_DMV := "Call DMV with License Info"
  const RETRIEVE_FROM_MANUAL := "Retrieve information from Underwriting Manual"
  const COMBINE_RETRIEVED := "Combine Retrieved Information"
  const GENERATE_FINAL_PROMPT := "Generate Final Prompt"
  const GET_FINAL_RESULT := "Get Final Result from Bedrock"

  const BRANCHES_PATH: Path := ["States", PARALLEL, "Branches"]

  /** The writes before the Parallel state is visited. */
  function PreludeWrites(props: StateMachineProps): seq<Write>
  {
    [ Write(["States", BASE64_IMAGE_ENCODING, "Parameters"], "FunctionName", Str(props.base64EncodeLambdaArn)),
      Write(["States", CLASSIFICATION, "Parameters"], "ModelId", Str(props.classificationModelARN)),
      Write(["States", CLASSIFICATION, "Parameters", "Input"], "S3Uri",
            Str(S3.Uri(props.inputS3BucketName, props.inputS3BucketClassificationKey))) ]
  }

  /** The branches, patched in place, as they stand in the Parallel state afterwards. */
  function BranchesWrite(patched: seq<Json>): Write
  {
    Write(["States", PARALLEL], "Branches", Arr(patched))
  }

  /** The writes after the branches have been visited. */
  function EpilogueWrites(props: StateMachineProps): seq<Write>
  {
    [ Write(["States", GENERATE_FINAL_PROMPT, "Parameters"], "FunctionName", Str(props.generateFinalPromptLambdaArn)),
      Write(["States", GET_FINAL_RESULT, "Parameters"], "ModelId", Str(props.finalResultModelARN)),
      Write(["States", GET_FINAL_RESULT, "Parameters", "Input"], "S3Uri",
            Str(S3.Uri(props.inputS3BucketName, props.inputS3BucketFinalPromptKey))) ]
  }

  /** The writes into a branch that holds the name-and-licence extraction state. */
  function ExtractionWrites(props: StateMachineProps): seq<Write>
  {
    [ Write(["States", EXTRACT_NAME_AND_LICENSE, "Parameters", "Input"], "S3Uri",
            Str(S3.Uri(props.inputS3BucketName, props.inputS3BucketExtractNameAndLicenseKey))),
      Write(["States", EXTRACT_NAME_AND_LICENSE, "Parameters"], "ModelId", Str(props.nameAndLicenceExtractionModelARN)),
      Write(["States", CALL_DMV, "Parameters"], "FunctionName", Str(props.dmvAPICallLambdaArn)) ]
  }

  /** The writes into a branch that holds the manual-retrieval state (and not the extraction state). */
  function RetrievalWrites(props: StateMachineProps, promptText: string): seq<Write>
  {
    [ Write(["States", RETRIEVE_FROM_MANUAL, "Parameters"], "KnowledgeBaseId", Str(props.knowledgeBaseId)),
      Write(["States", RETRIEVE_FROM_MANUAL, "Parameters", "RetrievalQuery"], "Text", Str(promptText)),
      Write(["States", COMBINE_RETRIEVED, "Parameters"], "FunctionName", Str(props.combineRetrievedInformationLambdaArn)) ]
  }

  /**
   * The `forEach` callback on one branch: it reads `branch.States[...]` to pick the writes, the
   * extraction state taking precedence over the retrieval state (`else if`).
   */
  function PatchBranch(branch: Json, props: StateMachineProps, promptText: string): Result<Json, Fault>
  {
    var states :- Member(Some(branch), "States");
    var extract :- Member(states, EXTRACT_NAME_AND_LICENSE);
    if Truthy(extract) then ApplyWrites(branch, ExtractionWrites(props))
    else
      // cannot throw: reading the extraction state from the same value did not
      var retrieve := Member(states, RETRIEVE_FROM_MANUAL).value;
      if Truthy(retrieve) then ApplyWrites(branch, RetrievalWrites(props, promptText))
      else Success(branch)
  }

  /** The callback applied to every branch in order; the first one that throws ends the loop. */
  function PatchAll(branches: seq<Json>, props: StateMachineProps, promptText: string): Result<seq<Json>, Fault>
    decreases |branches|
  {
    if branches == [] then Success([])
    else
      var init :- PatchAll(branches[..|branches| - 1], props, promptText);
      var last :- PatchBranch(branches[|branches| - 1], props, promptText);
      Success(init + [last])
  }

  /** `States.Parallel.Branches` must be an array for `forEach` to be called on it. */
  function BranchesOf(definition: Json): Result<seq<Json>, Fault>
  {
    match Lookup(definition, BRANCHES_PATH)
    case Some(Arr(branches)) => Success(branches)
    case _ => Failure(TypeError)
  }

  /** What `updateParsedDefinition` makes of a definition: the patched tree, or the TypeError it throws. */
  function Patched(definition: Json, props: StateMachineProps, promptText: string): Result<Json, Fault>
  {
    var prepared :- ApplyWrites(definition, PreludeWrites(props));
    var branches :- BranchesOf(prepared);
    var patched :- PatchAll(branches, props, promptText);
    ApplyWrites(prepared, [BranchesWrite(patched)] + EpilogueWrites(props))
  }

  // ---------------------------------------------------------------------------------------
  // The update, statement by statement

  /** The `forEach` callback, run on one branch. */
  method UpdateBranch(branch: Json, props: StateMachineProps, promptText: string) returns (result: Result<Json, Fault>)
    ensures result == PatchBranch(branch, props, promptText)
  {
    var updated := branch;
    var states :- Member(Some(branch), "States");
    var extract :- Member(states, EXTRACT_NAME_AND_LICENSE);
    if Truthy(extract) {
      ghost var rest := ExtractionWrites(props);
      assert ApplyWrites(branch, ExtractionWrites(props)) == ApplyWrites(updated, rest);
      updated :- Assign(updated, ["States", EXTRACT_NAME_AND_LICENSE, "Parameters", "Input"], "S3Uri",
                        Str(S3.Uri(props.inputS3BucketName, props.inputS3BucketExtractNameAndLicenseKey)));
      rest := rest[1..];
      assert ApplyWrites(branch, ExtractionWrites(props)) == ApplyWrites(updated, rest);
      updated :- Assign(updated, ["States", EXTRACT_NAME_AND_LICENSE, "Parameters"], "ModelId",
                        Str(props.nameAndLicenceExtractionModelARN));
      rest := rest[1..];
      assert ApplyWrites(branch, ExtractionWrites(props)) == ApplyWrites(updated, rest);
      updated :- Assign(updated, ["States", CALL_DMV, "Parameters"], "FunctionName", Str(props.dmvAPICallLambdaArn));
      rest := rest[1..];
      assert ApplyWrites(branch, ExtractionWrites(props)) == ApplyWrites(updated, rest);
    } else {
      var retrieve := Member(states, RETRIEVE_FROM_MANUAL).value;
      if Truthy(retrieve) {
        ghost var rest := RetrievalWrites(props, promptText);
        assert ApplyWrites(branch, RetrievalWrites(props, promptText)) == ApplyWrites(updated, rest);
        updated :- Assign(updated, ["States", RETRIEVE_FROM_MANUAL, "Parameters"], "KnowledgeBaseId",
                          Str(props.knowledgeBaseId));
        rest := rest[1..];
        assert ApplyWrites(branch, RetrievalWrites(props, promptText)) == ApplyWrites(updated, rest);
        updated :- Assign(updated, ["States", RETRIEVE_FROM_MANUAL, "Parameters", "RetrievalQuery"], "Text",
                          Str(promptText));
        rest := rest[1..];
        assert ApplyWrites(branch, RetrievalWrites(props, promptText)) == ApplyWrites(updated, rest);
        updated :- Assign(updated, ["States", COMBINE_RETRIEVED, "Parameters"], "FunctionName",
                          Str(props.combineRetrievedInformationLambdaArn));
        rest := rest[1..];
        assert ApplyWrites(branch, RetrievalWrites(props, promptText)) == ApplyWrites(updated, rest);
      }
    }
    result := Success(updated);
  }

  lemma {:induction false} PatchAllPrefixFails(branches: seq<Json>, n: nat, props: StateMachineProps, promptText: string)
    requires n <= |branches| && PatchAll(branches[..n], props, promptText).Failure?
    ensures PatchAll(branches, props, promptText) == PatchAll(branches[..n], props, promptText)
    decreases |branches| - n
  {
    if n < |branches| {
      assert branches[..n + 1][..n] == branches[..n];
      PatchAllPrefixFails(branches, n + 1, props, promptText);
    } else {
      assert branches[..n] == branches;
    }
  }

  /** The three statements before the Parallel state is visited. */
  method AssignPrelude(parsedDefinition: Json, props: StateMachineProps) returns (result: Result<Json, Fault>)
    ensures result == ApplyWrites(parsedDefinition, PreludeWrites(props))
    ensures result.Success? ==> result.value.Obj?
  {
    var definition := parsedDefinition;
    ghost var rest := PreludeWrites(props);
    assert ApplyWrites(parsedDefinition, PreludeWrites(props)) == ApplyWrites(definition, rest);
    definition :- Assign(definition, ["States", BASE64_IMAGE_ENCODING, "Parameters"], "FunctionName",
                         Str(props.base64EncodeLambdaArn));
    rest := rest[1..];
    assert ApplyWrites(parsedDefinition, PreludeWrites(props)) == ApplyWrites(definition, rest);
    definition :- Assign(definition, ["States", CLASSIFICATION, "Parameters"], "ModelId",
                         Str(props.classificationModelARN));
    rest := rest[1..];
    assert ApplyWrites(parsedDefinition, PreludeWrites(props)) == ApplyWrites(definition, rest);
    definition :- Assign(definition, ["States", CLASSIFICATION, "Parameters", "Input"], "S3Uri",
                         Str(S3.Uri(props.inputS3BucketName, props.inputS3BucketClassificationKey)));
    rest := rest[1..];
    assert ApplyWrites(parsedDefinition, PreludeWrites(props)) == ApplyWrites(definition, rest);
    assert rest == [];
    result := Success(definition);
  }

  /** `parsedDefinition.States['Parallel'].Branches`, which must be an array for `forEach` to exist. */
  method ReadBranches(definition: Json) returns (result: Result<seq<Json>, Fault>)
    requires definition.Obj?
    ensures result == BranchesOf(definition)
  {
    LookupAppend(definition, ["States"], [PARALLEL, "Branches"]);
    LookupAppend(definition, ["States", PARALLEL], ["Branches"]);
    LookupAppend(definition, ["States"], [PARALLEL]);
    assert ["States"] + [PARALLEL, "Branches"] == BRANCHES_PATH == ["States", PARALLEL] + ["Branches"];
    assert ["States"] + [PARALLEL] == ["States", PARALLEL];
    // The definition is an object, so this read cannot throw.
    var states := Member(Some(definition), "States").value;
    assert states == Lookup(definition, ["States"]);
    var parallel :- Member(states, PARALLEL);
    assert parallel == Lookup(definition, ["States", PARALLEL]);
    var branchesRead :- Member(parallel, "Branches");
    assert branchesRead == Lookup(definition, BRANCHES_PATH);
    if !(branchesRead.Some? && branchesRead.value.Arr?) {
      return Failure(TypeError);
    }
    result := Success(branchesRead.value.items);
  }

  /** `branches.forEach(callback)`: the callback on each branch in order, stopping at the first throw. */
  method VisitBranches(branches: seq<Json>, props: StateMachineProps, promptText: string)
    returns (result: Result<seq<Json>, Fault>)
    ensures result == PatchAll(branches, props, promptText)
  {
    var patched: seq<Json> := [];
    var i := 0;
    while i < |branches|
      invariant 0 <= i <= |branches|
      invariant PatchAll(branches[..i], props, promptText) == Success(patched)
    {
      assert branches[..i + 1][..i] == branches[..i];
      var outcome := UpdateBranch(branches[i], props, promptText);
      if outcome.Failure? {
        assert branches[..i + 1][i] == branches[i];
        assert PatchAll(branches[..i + 1], props, promptText) == Failure(outcome.error);
        PatchAllPrefixFails(branches, i + 1, props, promptText);
        return Failure(outcome.error);
      }
      patched := patched + [outcome.value];
      i := i + 1;
    }
    assert branches[..i] == branches;
    result := Success(patched);
  }

  /** The patched branches as they stand afterwards, then the three statements after the loop. */
  method AssignEpilogue(definition: Json, patched: seq<Json>, props: StateMachineProps)
    returns (result: Result<Json, Fault>)
    ensures result == ApplyWrites(definition, [BranchesWrite(patched)] + EpilogueWrites(props))
  {
    var updated := definition;
    ghost var rest := [BranchesWrite(patched)] + EpilogueWrites(props);
    ghost var all := rest;
    assert ApplyWrites(definition, all) == ApplyWrites(updated, rest);
    updated :- Assign(updated, ["States", PARALLEL], "Branches", Arr(patched));
    rest := rest[1..];
    assert ApplyWrites(definition, all) == ApplyWrites(updated, rest);
    updated :- Assign(updated, ["States", GENERATE_FINAL_PROMPT, "Parameters"], "FunctionName",
                      Str(props.generateFinalPromptLambdaArn));
    rest := rest[1..];
    assert ApplyWrites(definition, all) == ApplyWrites(updated, rest);
    updated :- Assign(updated, ["States", GET_FINAL_RESULT, "Parameters"], "ModelId",
                      Str(props.finalResultModelARN));
    rest := rest[1..];
    assert ApplyWrites(definition, all) == ApplyWrites(updated, rest);
    updated :- Assign(updated, ["States", GET_FINAL_RESULT, "Parameters", "Input"], "S3Uri",
                      Str(S3.Uri(props.inputS3BucketName, props.inputS3BucketFinalPromptKey)));
    rest := rest[1..];
    assert ApplyWrites(definition, all) == ApplyWrites(updated, rest);
    assert rest == [];
    result := Success(updated);
  }

  /**
   * `updateParsedDefinition(parsedDefinition, props)`, with the prompt file's text passed in.
   * The identifiers are written statement by statement; the branches are visited in order.
   */
  method UpdateParsedDefinition(parsedDefinition: Json, props: StateMachineProps, promptText: string)
    returns (result: Result<Json, Fault>)
    ensures result == Patched(parsedDefinition, props, promptText)
  {
    var definition :- AssignPrelude(parsedDefinition, props);
    var branches :- ReadBranches(definition);
    var patched :- VisitBranches(branches, props, promptText);
    result := AssignEpilogue(definition, patched, props);
  }

  // ---------------------------------------------------------------------------------------
  // What the update does

  /** The paths the top-level statements write. */
  const TOP_TARGETS: seq<Path> := [
    ["States", BASE64_IMAGE_ENCODING, "Parameters", "FunctionName"],
    ["States", CLASSIFICATION, "Parameters", "ModelId"],
    ["States", CLASSIFICATION, "Parameters", "Input", "S3Uri"],
    BRANCHES_PATH,
    ["States", GENERATE_FINAL_PROMPT, "Parameters", "FunctionName"],
    ["States", GET_FINAL_RESULT, "Parameters", "ModelId"],
    ["States", GET_FINAL_RESULT, "Parameters", "Input", "S3Uri"]]

  /** All top-level statements, in the order they run. */
  function TopWrites(props: StateMachineProps, patched: seq<Json>): (ws: seq<Write>)
    ensures |ws| == |TOP_TARGETS|
    ensures forall i :: 0 <= i < |ws| ==> Target(ws[i]) == TOP_TARGETS[i]
  {
    PreludeWrites(props) + [BranchesWrite(patched)] + EpilogueWrites(props)
  }

  /** The statements write seven different places, none inside another. */
  lemma TopTargetsDiverge()
    ensures forall a, b | 0 <= a < b < |TOP_TARGETS| :: Diverge(TOP_TARGETS[a], TOP_TARGETS[b])
  {
    forall a, b | 0 <= a < b < |TOP_TARGETS| ensures Diverge(TOP_TARGETS[a], TOP_TARGETS[b]) {
      if TOP_TARGETS[a][1] != TOP_TARGETS[b][1] {
        DivergeAt(TOP_TARGETS[a], TOP_TARGETS[b], 1);
      } else {
        DivergeAt(TOP_TARGETS[a], TOP_TARGETS[b], 3);
      }
    }
  }

  lemma TopWritesDisjoint(props: StateMachineProps, patched: seq<Json>)
    ensures Disjoint(TopWrites(props, patched))
  {
    TopTargetsDiverge();
  }

  /** The top-level statements run one after the other: the update is one run of writes. */
  lemma PatchedAsOneRun(definition: Json, props: StateMachineProps, promptText: string)
    requires Patched(definition, props, promptText).Success?
    ensures ApplyWrites(definition, PreludeWrites(props)).Success?
    ensures BranchesOf(ApplyWrites(definition, PreludeWrites(props)).value).Success?
    ensures PatchAll(BranchesOf(ApplyWrites(definition, PreludeWrites(props)).value).value, props, promptText).Success?
    ensures
      var patched := PatchAll(BranchesOf(ApplyWrites(definition, PreludeWrites(props)).value).value, props, promptText).value;
      ApplyWrites(definition, TopWrites(props, patched)) == Patched(definition, props, promptText)
  {
    var prepared := ApplyWrites(definition, PreludeWrites(props)).value;
    var patched := PatchAll(BranchesOf(prepared).value, props, promptText).value;
    ApplyWritesAppend(definition, PreludeWrites(props), [BranchesWrite(patched)] + EpilogueWrites(props));
    assert TopWrites(props, patched) == PreludeWrites(props) + ([BranchesWrite(patched)] + EpilogueWrites(props));
  }

  /** The prelude does not touch the Parallel state, so the branches read are the definition's own. */
  lemma PreludeKeepsBranches(definition: Json, props: StateMachineProps)
    requires ApplyWrites(definition, PreludeWrites(props)).Success?
    ensures BranchesOf(ApplyWrites(definition, PreludeWrites(props)).value) == BranchesOf(definition)
  {
    TopTargetsDiverge();
    forall i | 0 <= i < |PreludeWrites(props)| ensures Diverge(BRANCHES_PATH, Target(PreludeWrites(props)[i])) {
      assert Target(PreludeWrites(props)[i]) == TOP_TARGETS[i];
      assert Diverge(TOP_TARGETS[i], TOP_TARGETS[3]);
    }
    ApplyFrame(definition, PreludeWrites(props), BRANCHES_PATH);
    assert Lookup(ApplyWrites(definition, PreludeWrites(props)).value, BRANCHES_PATH) == Lookup(definition, BRANCHES_PATH);
  }

  /**
   * After a successful update every identifier the construct writes at the top level is in place
   * (or its parent is an array, where JavaScript drops the write).
   */
  lemma PatchedWritesTopLevel(definition: Json, props: StateMachineProps, promptText: string)
    requires Patched(definition, props, promptText).Success?
    ensures forall w | w in PreludeWrites(props) + EpilogueWrites(props) ::
      Holds(Patched(definition, props, promptText).value, w.parent, w.key, w.value)
  {
    PatchedAsOneRun(definition, props, promptText);
    var prepared := ApplyWrites(definition, PreludeWrites(props)).value;
    var patched := PatchAll(BranchesOf(prepared).value, props, promptText).value;
    var ws := TopWrites(props, patched);
    TopWritesDisjoint(props, patched);
    ApplyEstablishes(definition, ws);
    assert PreludeWrites(props) + EpilogueWrites(props) == ws[..3] + ws[4..];
  }

  /**
   * Where the parent of a top-level identifier is an object in the definition, the identifier
   * ends up exactly at its place: the Lambda ARNs, the model ARNs and the two `s3://` URIs.
   */
  lemma PatchedIdentifierExact(definition: Json, props: StateMachineProps, promptText: string, w: Write)
    requires Patched(definition, props, promptText).Success?
    requires w in PreludeWrites(props) + EpilogueWrites(props)
    requires Lookup(definition, w.parent).Some? && Lookup(definition, w.parent).value.Obj?
    ensures Lookup(Patched(definition, props, promptText).value, Target(w)) == Some(w.value)
  {
    PatchedAsOneRun(definition, props, promptText);
    var prepared := ApplyWrites(definition, PreludeWrites(props)).value;
    var patched := PatchAll(BranchesOf(prepared).value, props, promptText).value;
    var ws := TopWrites(props, patched);
    TopWritesDisjoint(props, patched);
    var i := TopIndex(props, patched, w);
    ApplyEstablishesAtObject(definition, ws, i);
  }

  /**
   * A prelude or epilogue write sits among the top-level writes, and no earlier one of them
   * writes on its parent's path.
   */
  lemma TopIndex(props: StateMachineProps, patched: seq<Json>, w: Write) returns (i: nat)
    requires w in PreludeWrites(props) + EpilogueWrites(props)
    ensures i < |TopWrites(props, patched)| && TopWrites(props, patched)[i] == w
    ensures forall h | 0 <= h < i :: Diverge(w.parent, Target(TopWrites(props, patched)[h]))
  {
    var ws := TopWrites(props, patched);
    var named := PreludeWrites(props) + EpilogueWrites(props);
    var k :| 0 <= k < |named| && named[k] == w;
    i := if k < 3 then k else k + 1;
    assert ws[i] == w;
    forall h | 0 <= h < i ensures Diverge(ws[i].parent, Target(ws[h])) {
      if ws[i].parent[1] != ws[h].parent[1] {
        DivergeAt(ws[i].parent, Target(ws[h]), 1);
      } else {
        DivergeAt(ws[i].parent, Target(ws[h]), 3);
      }
    }
  }

  /** The Parallel state ends up holding the definition's own branches, each patched by the callback. */
  lemma {:induction false} PatchedBranchesInPlace(definition: Json, props: StateMachineProps, promptText: string)
    requires Patched(definition, props, promptText).Success?
    ensures BranchesOf(definition).Success?
    ensures PatchAll(BranchesOf(definition).value, props, promptText).Success?
    ensures Lookup(Patched(definition, props, promptText).value, BRANCHES_PATH)
              == Some(Arr(PatchAll(BranchesOf(definition).value, props, promptText).value))
  {
    var prepared := ApplyWrites(definition, PreludeWrites(props)).value;
    PreludeKeepsBranches(definition, props);
    var patched := PatchAll(BranchesOf(definition).value, props, promptText).value;
    ApplyWritesAppend(prepared, [BranchesWrite(patched)], EpilogueWrites(props));
    // The Parallel state is an object when the branches are read, so the assignment lands.
    assert ["States", PARALLEL] + ["Branches"] == BRANCHES_PATH;
    LookupThroughObjects(prepared, ["States", PARALLEL], ["Branches"]);
    var middle := Assign(prepared, ["States", PARALLEL], "Branches", Arr(patched));
    assert ApplyWrites(prepared, [BranchesWrite(patched)]) == middle;
    AssignEstablishes(prepared, ["States", PARALLEL], "Branches", Arr(patched));
    TopTargetsDiverge();
    forall i | 0 <= i < |EpilogueWrites(props)| ensures Diverge(BRANCHES_PATH, Target(EpilogueWrites(props)[i])) {
      assert Target(EpilogueWrites(props)[i]) == TOP_TARGETS[i + 4];
    }
    ApplyFrame(middle.value, EpilogueWrites(props), BRANCHES_PATH);
  }

  /** Nothing outside the paths the top-level statements write is changed. */
  lemma PatchedFrame(definition: Json, props: StateMachineProps, promptText: string, q: Path)
    requires Patched(definition, props, promptText).Success?
    requires forall t | t in TOP_TARGETS :: Diverge(q, t)
    ensures Lookup(Patched(definition, props, promptText).value, q) == Lookup(definition, q)
  {
    PatchedAsOneRun(definition, props, promptText);
    var prepared := ApplyWrites(definition, PreludeWrites(props)).value;
    var patched := PatchAll(BranchesOf(prepared).value, props, promptText).value;
    var ws := TopWrites(props, patched);
    forall i | 0 <= i < |ws| ensures Diverge(q, Target(ws[i])) {
      assert TOP_TARGETS[i] in TOP_TARGETS;
    }
    ApplyFrame(definition, ws, q);
  }

  // ---------------------------------------------------------------------------------------
  // What the callback does to one branch

  /** The callback's reads do not throw: the branch has a `States` member that is not null. */
  predicate BranchReadable(branch: Json)
  {
    Lookup(branch, ["States"]).Some? && !Lookup(branch, ["States"]).value.Null?
  }

  /** The marker the callback tests for a state of the branch. */
  function Marker(branch: Json, state: string): Read
  {
    Lookup(branch, ["States", state])
  }

  /**
   * The callback by cases: it throws when `States` cannot be read, writes the extraction
   * identifiers when that state is present, else the retrieval identifiers when that one is,
   * and otherwise leaves the branch alone.
   */
  lemma PatchBranchCases(branch: Json, props: StateMachineProps, promptText: string)
    ensures !BranchReadable(branch) ==> PatchBranch(branch, props, promptText).Failure?
    ensures BranchReadable(branch) && Truthy(Marker(branch, EXTRACT_NAME_AND_LICENSE)) ==>
      PatchBranch(branch, props, promptText) == ApplyWrites(branch, ExtractionWrites(props))
    ensures BranchReadable(branch) && !Truthy(Marker(branch, EXTRACT_NAME_AND_LICENSE))
              && Truthy(Marker(branch, RETRIEVE_FROM_MANUAL)) ==>
      PatchBranch(branch, props, promptText) == ApplyWrites(branch, RetrievalWrites(props, promptText))
    ensures BranchReadable(branch) && !Truthy(Marker(branch, EXTRACT_NAME_AND_LICENSE))
              && !Truthy(Marker(branch, RETRIEVE_FROM_MANUAL)) ==>
      PatchBranch(branch, props, promptText) == Success(branch)
  {
    LookupAppend(branch, ["States"], [EXTRACT_NAME_AND_LICENSE]);
    LookupAppend(branch, ["States"], [RETRIEVE_FROM_MANUAL]);
    assert ["States"] + [EXTRACT_NAME_AND_LICENSE] == ["States", EXTRACT_NAME_AND_LICENSE];
    assert ["States"] + [RETRIEVE_FROM_MANUAL] == ["States", RETRIEVE_FROM_MANUAL];
  }

  lemma ExtractionWritesDisjoint(props: StateMachineProps)
    ensures Disjoint(ExtractionWrites(props))
  {
    var ws := ExtractionWrites(props);
    forall a, b | 0 <= a < b < |ws| ensures Diverge(Target(ws[a]), Target(ws[b])) {
      if b == 2 { DivergeAt(Target(ws[a]), Target(ws[b]), 1); } else { DivergeAt(Target(ws[a]), Target(ws[b]), 3); }
    }
  }

  lemma RetrievalWritesDisjoint(props: StateMachineProps, promptText: string)
    ensures Disjoint(RetrievalWrites(props, promptText))
  {
    var ws := RetrievalWrites(props, promptText);
    forall a, b | 0 <= a < b < |ws| ensures Diverge(Target(ws[a]), Target(ws[b])) {
      if b == 2 { DivergeAt(Target(ws[a]), Target(ws[b]), 1); } else { DivergeAt(Target(ws[a]), Target(ws[b]), 3); }
    }
  }

  /** After the callback the identifiers of the chosen case are in place. */
  lemma PatchBranchWrites(branch: Json, props: StateMachineProps, promptText: string)
    requires PatchBranch(branch, props, promptText).Success?
    ensures Truthy(Marker(branch, EXTRACT_NAME_AND_LICENSE)) ==>
      forall w | w in ExtractionWrites(props) :: Holds(PatchBranch(branch, props, promptText).value, w.parent, w.key, w.value)
    ensures !Truthy(Marker(branch, EXTRACT_NAME_AND_LICENSE)) && Truthy(Marker(branch, RETRIEVE_FROM_MANUAL)) ==>
      forall w | w in RetrievalWrites(props, promptText) :: Holds(PatchBranch(branch, props, promptText).value, w.parent, w.key, w.value)
  {
    PatchBranchCases(branch, props, promptText);
    if Truthy(Marker(branch, EXTRACT_NAME_AND_LICENSE)) {
      ExtractionWritesDisjoint(props);
      ApplyEstablishes(branch, ExtractionWrites(props));
    } else if Truthy(Marker(branch, RETRIEVE_FROM_MANUAL)) {
      RetrievalWritesDisjoint(props, promptText);
      ApplyEstablishes(branch, RetrievalWrites(props, promptText));
    }
  }

  /** A write into a state's parameters that holds leaves that state an object, so its marker is truthy. */
  lemma MarkerAfterWrite(j: Json, state: string, k: string, v: Json)
    requires Holds(j, ["States", state, "Parameters"], k, v)
    ensures BranchReadable(j) && Marker(j, state).Some? && Marker(j, state).value.Obj?
  {
    assert ["States", state] + ["Parameters"] == ["States", state, "Parameters"];
    assert ["States", state] + ["Parameters", k] == ["States", state, "Parameters"] + [k];
    if Lookup(j, ["States", state, "Parameters"] + [k]) == Some(v) {
      LookupThroughObjects(j, ["States", state], ["Parameters", k]);
    } else {
      LookupThroughObjects(j, ["States", state], ["Parameters"]);
    }
    assert ["States"] + [state] == ["States", state];
    LookupThroughObjects(j, ["States"], [state]);
  }

  /** Running the callback on a branch it has already patched changes nothing. */
  lemma PatchBranchIdempotent(branch: Json, props: StateMachineProps, promptText: string)
    requires PatchBranch(branch, props, promptText).Success?
    ensures PatchBranch(PatchBranch(branch, props, promptText).value, props, promptText) == PatchBranch(branch, props, promptText)
  {
    var r := PatchBranch(branch, props, promptText).value;
    PatchBranchCases(branch, props, promptText);
    PatchBranchCases(r, props, promptText);
    if !BranchReadable(branch) {
    } else if Truthy(Marker(branch, EXTRACT_NAME_AND_LICENSE)) {
      PatchBranchWrites(branch, props, promptText);
      var w := ExtractionWrites(props)[1];
      assert w in ExtractionWrites(props);
      MarkerAfterWrite(r, EXTRACT_NAME_AND_LICENSE, w.key, w.value);
      ExtractionWritesDisjoint(props);
      ApplyIdempotent(branch, ExtractionWrites(props));
    } else if Truthy(Marker(branch, RETRIEVE_FROM_MANUAL)) {
      PatchBranchWrites(branch, props, promptText);
      var ws := RetrievalWrites(props, promptText);
      assert ws[0] in ws;
      MarkerAfterWrite(r, RETRIEVE_FROM_MANUAL, ws[0].key, ws[0].value);
      forall i | 0 <= i < |ws| ensures Diverge(["States", EXTRACT_NAME_AND_LICENSE], Target(ws[i])) {
        DivergeAt(["States", EXTRACT_NAME_AND_LICENSE], Target(ws[i]), 1);
      }
      ApplyFrame(branch, ws, ["States", EXTRACT_NAME_AND_LICENSE]);
      RetrievalWritesDisjoint(props, promptText);
      ApplyIdempotent(branch, ws);
    }
  }

  /**
   * The callback changes nothing outside the places of the case it chose; in particular a branch
   * holding both states gets only the extraction identifiers.
   */
  lemma PatchBranchFrame(branch: Json, props: StateMachineProps, promptText: string, q: Path)
    requires PatchBranch(branch, props, promptText).Success?
    ensures Truthy(Marker(branch, EXTRACT_NAME_AND_LICENSE))
              && (forall w | w in ExtractionWrites(props) :: Diverge(q, Target(w))) ==>
      Lookup(PatchBranch(branch, props, promptText).value, q) == Lookup(branch, q)
    ensures !Truthy(Marker(branch, EXTRACT_NAME_AND_LICENSE))
              && (forall w | w in RetrievalWrites(props, promptText) :: Diverge(q, Target(w))) ==>
      Lookup(PatchBranch(branch, props, promptText).value, q) == Lookup(branch, q)
  {
    PatchBranchCases(branch, props, promptText);
    var ext := ExtractionWrites(props);
    var ret := RetrievalWrites(props, promptText);
    if Truthy(Marker(branch, EXTRACT_NAME_AND_LICENSE)) && (forall w | w in ext :: Diverge(q, Target(w))) {
      assert forall i | 0 <= i < |ext| :: ext[i] in ext;
      ApplyFrame(branch, ext, q);
    }
    if !Truthy(Marker(branch, EXTRACT_NAME_AND_LICENSE)) && (forall w | w in ret :: Diverge(q, Target(w)))
       && Truthy(Marker(branch, RETRIEVE_FROM_MANUAL)) {
      assert forall i | 0 <= i < |ret| :: ret[i] in ret;
      ApplyFrame(branch, ret, q);
    }
  }

  // ---------------------------------------------------------------------------------------
  // All branches, and the whole update

  /** The callback runs on every branch in order and keeps their number and positions. */
  lemma {:induction false} PatchAllPointwise(branches: seq<Json>, props: StateMachineProps, promptText: string)
    ensures PatchAll(branches, props, promptText).Success? <==>
      forall i | 0 <= i < |branches| :: PatchBranch(branches[i], props, promptText).Success?
    ensures PatchAll(branches, props, promptText).Success? ==>
      var r := PatchAll(branches, props, promptText).value;
      |r| == |branches| && forall i | 0 <= i < |branches| :: r[i] == PatchBranch(branches[i], props, promptText).value
    decreases |branches|
  {
    if branches != [] {
      var n := |branches| - 1;
      var init := branches[..n];
      PatchAllPointwise(init, props, promptText);
      assert forall i | 0 <= i < n :: init[i] == branches[i];
      if !PatchBranch(branches[n], props, promptText).Success? {
        assert !(forall i | 0 <= i < |branches| :: PatchBranch(branches[i], props, promptText).Success?);
      }
    }
  }

  lemma {:induction false} PatchAllIdempotent(branches: seq<Json>, props: StateMachineProps, promptText: string)
    requires PatchAll(branches, props, promptText).Success?
    ensures PatchAll(PatchAll(branches, props, promptText).value, props, promptText) == PatchAll(branches, props, promptText)
  {
    var r := PatchAll(branches, props, promptText).value;
    PatchAllPointwise(branches, props, promptText);
    PatchAllPointwise(r, props, promptText);
    forall i | 0 <= i < |r| ensures PatchBranch(r[i], props, promptText) == Success(r[i]) {
      PatchBranchIdempotent(branches[i], props, promptText);
    }
    assert PatchAll(r, props, promptText).value == r;
  }

  /** Deploying an already updated definition again changes nothing. */
  lemma PatchedIdempotent(definition: Json, props: StateMachineProps, promptText: string)
    requires Patched(definition, props, promptText).Success?
    ensures Patched(Patched(definition, props, promptText).value, props, promptText) == Patched(definition, props, promptText)
  {
    var r := Patched(definition, props, promptText).value;
    PatchedAsOneRun(definition, props, promptText);
    PatchedBranchesInPlace(definition, props, promptText);
    PreludeKeepsBranches(definition, props);
    var patched := PatchAll(BranchesOf(definition).value, props, promptText).value;
    var ws := TopWrites(props, patched);
    TopWritesDisjoint(props, patched);
    ApplyEstablishes(definition, ws);
    // Every write already holds in r, so the prelude and the final writes leave it unchanged.
    ApplyStable(r, ws);
    ApplyWritesAppend(r, PreludeWrites(props), [BranchesWrite(patched)] + EpilogueWrites(props));
    assert ws == PreludeWrites(props) + ([BranchesWrite(patched)] + EpilogueWrites(props));
    assert forall i | 0 <= i < |PreludeWrites(props)| :: PreludeWrites(props)[i] == ws[i];
    ApplyStable(r, PreludeWrites(props));
    assert BranchesOf(r) == Success(patched);
    PatchAllIdempotent(BranchesOf(definition).value, props, promptText);
  }

  // ---------------------------------------------------------------------------------------
  // When the update throws

  /** A definition missing one of the top-level states the construct writes into makes it throw. */
  lemma PatchedFailsOnMissingState(definition: Json, props: StateMachineProps, promptText: string, state: string)
    requires state in [BASE64_IMAGE_ENCODING, CLASSIFICATION, PARALLEL, GENERATE_FINAL_PROMPT, GET_FINAL_RESULT]
    requires Lookup(definition, ["States", state]).None?
    ensures Patched(definition, props, promptText).Failure?
  {
    var q := ["States", state];
    var pre := PreludeWrites(props);
    if state == BASE64_IMAGE_ENCODING {
      ApplyFailsOnMissing(definition, pre, 0, q);
    } else if state == CLASSIFICATION {
      DivergeAt(q, Target(pre[0]), 1);
      ApplyFailsOnMissing(definition, pre, 1, q);
    } else if ApplyWrites(definition, pre).Success? {
      var prepared := ApplyWrites(definition, pre).value;
      forall i | 0 <= i < |pre| ensures Diverge(q, Target(pre[i])) {
        DivergeAt(q, Target(pre[i]), 1);
      }
      ApplyFrame(definition, pre, q);
      if state == PARALLEL {
        LookupAppend(prepared, q, ["Branches"]);
        assert q + ["Branches"] == BRANCHES_PATH;
      } else if BranchesOf(prepared).Success? && PatchAll(BranchesOf(prepared).value, props, promptText).Success? {
        var patched := PatchAll(BranchesOf(prepared).value, props, promptText).value;
        EpilogueFailsOnMissing(prepared, patched, props, state);
      }
    }
  }

  /** The statements after the loop throw when a state they assign into is missing. */
  lemma EpilogueFailsOnMissing(prepared: Json, patched: seq<Json>, props: StateMachineProps, state: string)
    requires state == GENERATE_FINAL_PROMPT || state == GET_FINAL_RESULT
    requires Lookup(prepared, ["States", state]).None?
    ensures ApplyWrites(prepared, [BranchesWrite(patched)] + EpilogueWrites(props)).Failure?
  {
    var q := ["States", state];
    var tail := [BranchesWrite(patched)] + EpilogueWrites(props);
    forall i | 0 <= i < |tail| && tail[i].parent[1] != state ensures Diverge(q, Target(tail[i])) {
      DivergeAt(q, Target(tail[i]), 1);
    }
    if state == GENERATE_FINAL_PROMPT {
      ApplyFailsOnMissing(prepared, tail, 1, q);
    } else {
      ApplyFailsOnMissing(prepared, tail, 2, q);
    }
  }

  /**
   * A branch whose extraction state is patched must also hold the DMV call state, and one whose
   * retrieval state is patched must also hold the combining state; otherwise the callback throws.
   */
  lemma PatchBranchFailsOnMissingPartner(branch: Json, props: StateMachineProps, promptText: string)
    ensures Truthy(Marker(branch, EXTRACT_NAME_AND_LICENSE)) && Marker(branch, CALL_DMV).None? ==>
      PatchBranch(branch, props, promptText).Failure?
    ensures !Truthy(Marker(branch, EXTRACT_NAME_AND_LICENSE)) && Truthy(Marker(branch, RETRIEVE_FROM_MANUAL))
              && Marker(branch, COMBINE_RETRIEVED).None? ==>
      PatchBranch(branch, props, promptText).Failure?
  {
    PatchBranchCases(branch, props, promptText);
    var ext := ExtractionWrites(props);
    var ret := RetrievalWrites(props, promptText);
    var dmv := ["States", CALL_DMV];
    var combine := ["States", COMBINE_RETRIEVED];
    if Truthy(Marker(branch, EXTRACT_NAME_AND_LICENSE)) && Marker(branch, CALL_DMV).None? {
      assert Marker(branch, EXTRACT_NAME_AND_LICENSE).Some?;
      DivergeAt(dmv, Target(ext[0]), 1);
      DivergeAt(dmv, Target(ext[1]), 1);
      ApplyFailsOnMissing(branch, ext, 2, dmv);
    }
    if !Truthy(Marker(branch, EXTRACT_NAME_AND_LICENSE)) && Truthy(Marker(branch, RETRIEVE_FROM_MANUAL))
       && Marker(branch, COMBINE_RETRIEVED).None? {
      DivergeAt(combine, Target(ret[0]), 1);
      DivergeAt(combine, Target(ret[1]), 1);
      ApplyFailsOnMissing(branch, ret, 2, combine);
    }
  }
}
