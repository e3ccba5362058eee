/**
 * The catalogue of block types and block states shown to users: one entry
 * per type (display name, description, examples, colour) and one per state,
 * with lookups that fall back to a grey colour and no examples.
 *
 * The catalogue has its own vocabulary, distinct from the store's: five
 * block types (no `end`) and six states (`editing` ... `checkpoint`).
 */
module BlockDefinitions {
  import opened Sequences

  datatype BlockType = Trigger | Extraction | Generation | Condition | Action

  datatype BlockState = Editing | Ready | Running | Completed | Error | Checkpoint

  datatype BlockTypeDefinition = BlockTypeDefinition(
    kind: BlockType,
    name: string,
    examples: seq<string>,
    color: string)

  datatype BlockStateDefinition = BlockStateDefinition(state: BlockState)

  /** The colour a lookup answers with when a type has no entry. */
  const DefaultColor: string := "#cccccc"

  const BlockTypes: seq<BlockTypeDefinition> := [
    BlockTypeDefinition(Trigger, "Trigger Blocks", Examples(Trigger), "#3498db"),
    BlockTypeDefinition(Extraction, "Extraction Blocks", Examples(Extraction), "#9b59b6"),
    BlockTypeDefinition(Generation, "Generation Blocks", Examples(Generation), "#2ecc71"),
    BlockTypeDefinition(Condition, "Condition Blocks", Examples(Condition), "#f39c12"),
    BlockTypeDefinition(Action, "Action Blocks", Examples(Action), "#e74c3c")
  ]

  /** The four examples of each catalogue entry. */
  function Examples(kind: BlockType): (r: seq<string>)
    ensures |r| == 4
  {
    match kind
    case Trigger => ["Email receipt trigger", "Scheduled daily report trigger", "API endpoint trigger", "File upload trigger"]
    case Extraction =>
      ["Insurance form field extraction", "Invoice line item extraction", "Medical record data extraction", "Contract clause identification"]
    case Generation => ["Email response generator", "Data format transformer", "PDF report creator", "Summary generator"]
    case Condition => ["Payment status checker", "Risk score evaluator", "Document completeness validator", "Customer type classifier"]
    case Action => ["Email sender", "API call to update database", "RPA web form completion", "Document export to storage"]
  }

  /**
   * The description text of each type entry. It is kept beside the table
   * rather than in it: no lookup reads it.
   */
  function TypeDescription(kind: BlockType): string
  {
    match kind
    case Trigger =>
      "Starting points that initiate workflow execution when specific events occur, such as receiving an email or API call. Triggers determine when workflows begin and what initial inputs they receive."
    case Extraction =>
      "Transform unstructured content into structured data by identifying and extracting specific information from documents, images, or text, making it available for further processing."
    case Generation =>
      "Create new content or transform existing data using AI models. These blocks generate text, modify data formats, or produce new documents based on input parameters."
    case Condition =>
      "Evaluate logic to control workflow direction, allowing the system to make decisions and take different paths based on data values, comparisons, or validation results."
    case Action =>
      "Execute operations that affect external systems, creating tangible outcomes from the workflow such as sending communications, updating records, or automating web interactions."
  }

  const BlockStates: seq<BlockStateDefinition> := [
    BlockStateDefinition(Editing),
    BlockStateDefinition(Ready),
    BlockStateDefinition(Running),
    BlockStateDefinition(Completed),
    BlockStateDefinition(Error),
    BlockStateDefinition(Checkpoint)
  ]

  /** The description text of each state entry, kept beside the table like `TypeDescription`. */
  function StateDescription(state: BlockState): string
  {
    match state
    case Editing => "Block is currently being configured or modified by the user"
    case Ready => "Block is configured and ready to execute"
    case Running => "Block is actively executing its operation"
    case Completed => "Block has successfully finished execution"
    case Error => "Block encountered an error during execution"
    case Checkpoint => "Block execution is paused at a defined checkpoint for inspection"
  }

  /** Entry `i` of the type catalogue describes the `i`-th type in declaration order. */
  function TypeAt(i: nat): BlockType
    requires i < 5
  {
    [Trigger, Extraction, Generation, Condition, Action][i]
  }

  /** The type catalogue lists every type exactly once, in declaration order. */
  lemma TypesListedOnce()
    ensures |BlockTypes| == 5
    ensures forall i :: 0 <= i < |BlockTypes| ==> BlockTypes[i].kind == TypeAt(i)
    ensures forall i, j :: 0 <= i < j < |BlockTypes| ==> BlockTypes[i].kind != BlockTypes[j].kind
  {
  }

  /** The state catalogue lists every state exactly once. */
  lemma StatesListedOnce()
    ensures |BlockStates| == 6
    ensures forall i, j :: 0 <= i < j < |BlockStates| ==> BlockStates[i].state != BlockStates[j].state
  {
  }

  /** `getBlockTypeDefinition`: the first catalogue entry for `kind`, if any. */
  function GetBlockTypeDefinition(kind: BlockType): (r: Option<BlockTypeDefinition>)
    ensures r.Some? ==> r.value in BlockTypes && r.value.kind == kind
    ensures r.None? <==> forall i :: 0 <= i < |BlockTypes| ==> BlockTypes[i].kind != kind
  {
    Find(BlockTypes, (d: BlockTypeDefinition) => d.kind == kind)
  }

  /** `getBlockStateDefinition`: the first catalogue entry for `state`, if any. */
  function GetBlockStateDefinition(state: BlockState): (r: Option<BlockStateDefinition>)
    ensures r.Some? ==> r.value in BlockStates && r.value.state == state
    ensures r.None? <==> forall i :: 0 <= i < |BlockStates| ==> BlockStates[i].state != state
  {
    Find(BlockStates, (d: BlockStateDefinition) => d.state == state)
  }

  /** Every type has a definition, and it is the catalogue entry in the type's own position. */
  lemma TypeDefinitionAt(i: nat)
    requires i < |BlockTypes|
    ensures GetBlockTypeDefinition(BlockTypes[i].kind) == Some(BlockTypes[i])
  {
    TypesListedOnce();
  }

  /** Every state has a definition, and it is the catalogue entry carrying that state. */
  lemma StateDefinitionAt(i: nat)
    requires i < |BlockStates|
    ensures GetBlockStateDefinition(BlockStates[i].state) == Some(BlockStates[i])
  {
    StatesListedOnce();
  }

  /** Every state finds its own entry, so the lookup never comes back empty. */
  lemma EveryStateDefined(state: BlockState)
    ensures GetBlockStateDefinition(state) == Some(BlockStateDefinition(state))
  {
    match state
    case Editing => StateDefinitionAt(0);
    case Ready => StateDefinitionAt(1);
    case Running => StateDefinitionAt(2);
    case Completed => StateDefinitionAt(3);
    case Error => StateDefinitionAt(4);
    case Checkpoint => StateDefinitionAt(5);
  }

  /** `getBlockColor`: the entry's colour, or the grey default for a type without one. */
  function GetBlockColor(kind: BlockType): (color: string)
    ensures GetBlockTypeDefinition(kind).None? ==> color == DefaultColor
    ensures GetBlockTypeDefinition(kind).Some? ==> color == GetBlockTypeDefinition(kind).value.color
  {
    match GetBlockTypeDefinition(kind)
    case Some(d) => d.color
    case None => DefaultColor
  }

  /** `getBlockExamples`: the entry's examples, or none for a type without one. */
  function GetBlockExamples(kind: BlockType): (examples: seq<string>)
    ensures GetBlockTypeDefinition(kind).None? ==> examples == []
    ensures GetBlockTypeDefinition(kind).Some? ==> examples == GetBlockTypeDefinition(kind).value.examples
  {
    match GetBlockTypeDefinition(kind)
    case Some(d) => d.examples
    case None => []
  }

  /** Each type gets its own colour from the table. */
  lemma TypeColors(kind: BlockType)
    ensures GetBlockColor(kind) == match kind
      case Trigger => "#3498db"
      case Extraction => "#9b59b6"
      case Generation => "#2ecc71"
      case Condition => "#f39c12"
      case Action => "#e74c3c"
  {
    match kind
    case Trigger => TypeDefinitionAt(0);
    case Extraction => TypeDefinitionAt(1);
    case Generation => TypeDefinitionAt(2);
    case Condition => TypeDefinitionAt(3);
    case Action => TypeDefinitionAt(4);
  }

  /** Since every type is catalogued, the grey fallback colour is never used. */
  lemma ColorNeverDefault(kind: BlockType)
    ensures GetBlockColor(kind) != DefaultColor
  {
    var i := match kind
      case Trigger => 0
      case Extraction => 1
      case Generation => 2
      case Condition => 3
      case Action => 4;
    TypeDefinitionAt(i);
    assert BlockTypes[i].color[1] != DefaultColor[1];
  }

  /** Likewise the examples fallback never applies: each type gets its four examples. */
  lemma TypeExamples(kind: BlockType)
    ensures GetBlockExamples(kind) == Examples(kind)
    ensures |GetBlockExamples(kind)| == 4
  {
    TypesListedOnce();
    TypeDefinitionAt(match kind
      case Trigger => 0
      case Extraction => 1
      case Generation => 2
      case Condition => 3
      case Action => 4);
  }

  /** Distinct types are drawn in distinct colours. */
  lemma ColorsDistinct(a: BlockType, b: BlockType)
    requires a != b
    ensures GetBlockColor(a) != GetBlockColor(b)
  {
    TypeColors(a);
    TypeColors(b);
  }
}
