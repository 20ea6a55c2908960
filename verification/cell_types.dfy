/** The closed set of cell types, the label table read from mapping files,
    and the errors that abort a calibration run. */
module CellTypes {

  /** The five kinds of cell a game field can hold. */
  datatype CellType = Empty | Skull | Red | Green | Blue

  /** Every cell type, in the order the source declares (and iterates) them. */
  const TypeOrder: seq<CellType> := [Empty, Skull, Red, Green, Blue]

  /** The same five types as a set; TypeOrderComplete states that the two agree. */
  const AllTypes: set<CellType> := {Empty, Skull, Red, Green, Blue}

  /** The tokens a mapping file may use: the keys of LabelTable, as
      LabelTableDomain states. */
  const LabelKeys: set<string> := {"e", "s", "r", "g", "b"}

  /** Why a calibration run aborts. */
  datatype Error =
    | UnknownLabel(token: string)        // the label table has no such key
    | MissingRow(row: nat)               // the mapping has fewer rows than the grid
    | MissingColumn(row: nat, col: nat)  // a mapping row has fewer tokens than the grid
    | NoSamples(cellType: CellType)      // a type never occurred, so its mean divides by zero

  datatype Result<T> = Ok(value: T) | Err(error: Error)

  datatype Option<T> = None | Some(value: T)

  /** The name the source uses for a cell type. */
  function Name(t: CellType): (n: string)
    ensures n in {"empty", "skull", "red", "green", "blue"}
    ensures |n| >= 3 && forall i :: 0 <= i < |n| ==> 'a' <= n[i] <= 'z'
  {
    match t
    case Empty => "empty"
    case Skull => "skull"
    case Red => "red"
    case Green => "green"
    case Blue => "blue"
  }

  /** The label table: one-character tokens of a mapping file to cell types. */
  const LabelTable: map<string, CellType> :=
    map["e" := Empty, "s" := Skull, "r" := Red, "g" := Green, "b" := Blue]

  /** Looking a token up in the label table; a missing key yields no type. */
  function Lookup(token: string): (r: Option<CellType>)
    ensures r.Some? <==> token in LabelKeys
  {
    if token in LabelTable then Some(LabelTable[token]) else None
  }

  /** The label that the table maps to a cell type. */
  function Label(t: CellType): (k: string)
    ensures k in LabelKeys && |k| == 1
  {
    match t
    case Empty => "e"
    case Skull => "s"
    case Red => "r"
    case Green => "g"
    case Blue => "b"
  }

  /** The table's keys are exactly the five labels, and its values every type. */
  lemma LabelTableDomain()
    ensures LabelTable.Keys == LabelKeys
    ensures LabelTable.Values == AllTypes
    ensures |LabelKeys| == 5 && |AllTypes| == 5
  {
    assert LabelTable["e"] == Empty && LabelTable["s"] == Skull && LabelTable["r"] == Red;
    assert LabelTable["g"] == Green && LabelTable["b"] == Blue;
  }

  /** Distinct labels map to distinct types, and each type's label maps back to it. */
  lemma {:induction false} LookupBijective(k1: string, k2: string, t: CellType)
    ensures Lookup(Label(t)) == Some(t)
    ensures k1 in LabelKeys && k2 in LabelKeys && Lookup(k1) == Lookup(k2) ==> k1 == k2
    ensures Lookup(k1).Some? ==> Label(Lookup(k1).value) == k1
  {
  }

  /** Distinct cell types have distinct names. */
  lemma {:induction false} NamesDistinct(t: CellType, u: CellType)
    ensures Name(t) == Name(u) ==> t == u
  {
  }

  /** The set of all types holds every cell type. */
  lemma AllTypesComplete()
    ensures forall t: CellType :: t in AllTypes
  {
    forall t: CellType ensures t in AllTypes {
      match t
      case Empty =>
      case Skull =>
      case Red =>
      case Green =>
      case Blue =>
    }
  }

  /** Every cell type occurs exactly once in the declared order. */
  lemma {:induction false} TypeOrderComplete(t: CellType)
    ensures t in TypeOrder && t in AllTypes
    ensures |TypeOrder| == 5
    ensures forall i, j :: 0 <= i < j < |TypeOrder| ==> TypeOrder[i] != TypeOrder[j]
  {
  }
}
