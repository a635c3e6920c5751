/** The intake-details dialog of a chat: the wizard's role shown as a
    phrase, each stored answer as a labelled row, and the empty and closed
    cases. */
module IntakeDetailsModal {
  import opened Common
  import Js

  const ExistingChoice := "existing"
  const OwnerPhrase := "Cold Storage Owner"
  const BuilderPhrase := "Planning to Build"
  const NoDataText := "No intake data available"

  /** The fixed labels of the known answer keys. */
  const FieldLabels: map<string, string> := map[
    "location" := "Location",
    "variety" := "Potato Variety",
    "capacity_mt" := "Capacity (MT)",
    "storage_goal" := "Storage Purpose",
    "current_problems" := "Current Challenges",
    "current_temperature" := "Current Temperature",
    "purpose" := "Storage Purpose",
    "storageMethod" := "Storage Method",
    "capacity" := "Capacity",
    "category" := "Category",
    "issues" := "Issues",
    "chamberType" := "Chamber Type",
    "targetCapacity" := "Target Capacity",
    "budget" := "Budget",
    "targetUsers" := "Target Users"]

  function FormatUserChoice(choice: string): (r: string)
    ensures r == OwnerPhrase <==> choice == ExistingChoice
    ensures r == BuilderPhrase <==> choice != ExistingChoice
  {
    if choice == ExistingChoice then OwnerPhrase else BuilderPhrase
  }

  /** toUpperCase on one character, for the ASCII letters. */
  function UpperChar(c: char): (u: char)
    ensures 'a' <= c <= 'z' ==> 'A' <= u <= 'Z' && u as int == c as int - 32
    ensures !('a' <= c <= 'z') ==> u == c
  {
    if 'a' <= c <= 'z' then (c as int - 32) as char else c
  }

  /** `key.charAt(0).toUpperCase() + key.slice(1)`. */
  function Capitalize(key: string): (r: string)
    ensures |r| == |key| && (key != [] ==> r[1..] == key[1..])
    ensures key != [] ==> r[0] == UpperChar(key[0])
  {
    if key == [] then [] else [UpperChar(key[0])] + key[1..]
  }

  /** Every label in the table is non-empty, so `fieldMap[key] || …` never
      falls through for a known key. */
  lemma LabelsNonEmpty()
    ensures forall k :: k in FieldLabels ==> FieldLabels[k] != ""
  {
  }

  /** A known key shows its label; any other key (the empty one included)
      is shown capitalised. */
  function FormatFieldName(key: string): (r: string)
    ensures key in FieldLabels ==> r == FieldLabels[key]
    ensures key !in FieldLabels ==> r == Capitalize(key)
    ensures key == "" ==> r == ""
  {
    LabelsNonEmpty();
    if key in FieldLabels && FieldLabels[key] != "" then FieldLabels[key] else Capitalize(key)
  }

  /** An array is joined with ", ", a boolean becomes Yes or No, anything
      else is String(value). */
  function FormatFieldValue(value: Js.Value): (r: string)
    ensures value.Arr? ==> r == Js.JoinValues(value.items, ", ")
    ensures value.Bool? ==> (r == "Yes" <==> value.b) && (r == "No" <==> !value.b)
    ensures !value.Arr? && !value.Bool? ==> r == Js.ToString(value)
  {
    match value
    case Arr(items) => Js.JoinValues(items, ", ")
    case Bool(b) => if b then "Yes" else "No"
    case _ => Js.ToString(value)
  }

  /** A multi-select answer (an array of strings) reads as its options
      separated by ", ". */
  lemma ListAnswerReadsAsOptions(options: seq<string>)
    ensures FormatFieldValue(Js.Arr(seq(|options|, i requires 0 <= i < |options| => Js.Str(options[i]))))
            == Join(options, ", ")
  {
    Js.JoinStrings(seq(|options|, i requires 0 <= i < |options| => Js.Str(options[i])), options, ", ");
  }

  /** Object.entries: an object's own entries, an array's or a string's
      indices with their elements, nothing for the other primitives. */
  function Entries(v: Js.Value): (r: seq<(string, Js.Value)>)
    ensures v.Obj? ==> r == v.entries
    ensures v.Arr? ==> |r| == |v.items| && forall i :: 0 <= i < |r| ==> r[i] == (NatToString(i), v.items[i])
    ensures v.Str? ==> |r| == |v.s| && forall i :: 0 <= i < |r| ==> r[i] == (NatToString(i), Js.Str([v.s[i]]))
    ensures !v.Obj? && !v.Arr? && !v.Str? ==> r == []
  {
    match v
    case Obj(entries) => entries
    case Arr(items) => seq(|items|, i requires 0 <= i < |items| => (NatToString(i), items[i]))
    case Str(s) => seq(|s|, i requires 0 <= i < |s| => (NatToString(i), Js.Str([s[i]])))
    case _ => []
  }

  datatype Row = Row(name: string, value: string)

  datatype View =
    | Hidden
    | NoData(heading: string)
    | Details(heading: string, rows: seq<Row>)

  /** Nothing is rendered when closed; an open dialog shows the role
      phrase, then the empty notice exactly when the data is falsy or has
      no keys, and otherwise one formatted row per entry, in order. */
  function Render(isOpen: bool, intakeData: Js.Value, userChoice: string): (r: View)
    ensures r == Hidden <==> !isOpen
    ensures isOpen ==> r.heading == FormatUserChoice(userChoice)
    ensures r.NoData? <==> isOpen && (!Js.Truthy(intakeData) || Entries(intakeData) == [])
    ensures r.Details? ==>
              var entries := Entries(intakeData);
              && |r.rows| == |entries| > 0
              && forall i :: 0 <= i < |r.rows| ==>
                   r.rows[i] == Row(FormatFieldName(entries[i].0), FormatFieldValue(entries[i].1))
  {
    if !isOpen then Hidden
    else
      var heading := FormatUserChoice(userChoice);
      var entries := Entries(intakeData);
      if Js.Truthy(intakeData) && |entries| > 0 then
        Details(heading, seq(|entries|, i requires 0 <= i < |entries| =>
          Row(FormatFieldName(entries[i].0), FormatFieldValue(entries[i].1))))
      else NoData(heading)
  }

  /** Null, undefined and an object without keys all give the notice. */
  lemma MissingDataShowsNotice(userChoice: string)
    ensures Render(true, Js.Null, userChoice) == NoData(FormatUserChoice(userChoice))
    ensures Render(true, Js.Undefined, userChoice) == NoData(FormatUserChoice(userChoice))
    ensures Render(true, Js.Obj([]), userChoice) == NoData(FormatUserChoice(userChoice))
  {
  }
}
