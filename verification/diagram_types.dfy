/**
 * The records of the diagram (blocks and connections) and the two static rule
 * tables: which block types may feed which, and how many inputs and outputs a
 * block of each type may have.
 */
module DiagramTypes {
  import opened Sequences

  datatype BlockType = Trigger | Extraction | Generation | Condition | Action | End

  /** The presentational run state of a block. */
  datatype BlockState = Idle | Running | Finished | Error

  /** A grid coordinate; the store reads and writes only `row` and `column`. */
  datatype Position = Position(row: int, column: int)

  /** A value in a block's free-form configuration bag. */
  datatype ConfigValue = Text(text: string) | Number(number: int) | Flag(flag: bool)

  type Config = map<string, ConfigValue>

  /** A block; `inputs` and `outputs` hold the ids of its connected predecessors and successors. */
  datatype Block = Block(
    id: string,
    kind: BlockType,
    position: Position,
    labelText: string,
    state: BlockState,
    inputs: seq<string>,
    outputs: seq<string>,
    config: Config)

  /** A directed edge between two blocks, optionally tagged as a condition branch. */
  datatype Connection = Connection(
    id: string,
    sourceId: string,
    targetId: string,
    condition: Option<string>,
    isTrueBranch: Option<bool>)

  /** How many inputs and outputs a block of a given type may have. */
  datatype Capacity = Capacity(inputs: nat, outputs: nat)

  /** The lower-case name a block type has in the source (its string value). */
  function TypeName(kind: BlockType): string
  {
    match kind
    case Trigger => "trigger"
    case Extraction => "extraction"
    case Generation => "generation"
    case Condition => "condition"
    case Action => "action"
    case End => "end"
  }

  /** The compatibility table: the target types a block of type `source` may connect to. */
  function ValidConnections(source: BlockType): (targets: seq<BlockType>)
    ensures source !in targets
    ensures targets == [] <==> source == End
  {
    match source
    case Trigger => [Extraction, Action, Condition]
    case Extraction => [Action, Condition]
    case Generation => [Action, Condition, End]
    case Condition => [Generation, Action, Trigger, End]
    case Action => [Condition, Generation, End]
    case End => []
  }

  /** The per-type input and output limits. */
  function BlockIO(kind: BlockType): (cap: Capacity)
    ensures cap.inputs <= 1 && cap.outputs <= 2
    ensures cap.outputs == 2 <==> kind == Condition
    ensures cap.outputs == 0 <==> kind == End
    ensures cap.inputs == 0 <==> kind == Trigger
  {
    match kind
    case Trigger => Capacity(0, 1)
    case Extraction => Capacity(1, 1)
    case Generation => Capacity(1, 1)
    case Condition => Capacity(1, 2)
    case Action => Capacity(1, 1)
    case End => Capacity(1, 0)
  }

  /** The table lists `condition -> trigger`, yet a trigger accepts no input at all. */
  lemma TriggerListedButClosed()
    ensures Trigger in ValidConnections(Condition)
    ensures BlockIO(Trigger).inputs == 0
  {
  }

  /** The linear pipeline `trigger -> extraction -> action` is permitted by the table. */
  lemma TriggerExtractionActionPermitted()
    ensures Extraction in ValidConnections(Trigger)
    ensures Action in ValidConnections(Extraction)
  {
  }

  /** No two blocks of the list share an id. */
  predicate UniqueIds(blocks: seq<Block>)
  {
    forall i, j :: 0 <= i < j < |blocks| ==> blocks[i].id != blocks[j].id
  }

  /** Some block of the list has this id. */
  predicate HasBlock(blocks: seq<Block>, id: string)
  {
    exists i :: 0 <= i < |blocks| && blocks[i].id == id
  }
}
