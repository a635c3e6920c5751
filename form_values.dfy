/** What the two intake wizards store per question: a text (free text or
    the one chosen option) or a list of chosen options; the multi-select
    toggle; and the category-dependent variety options. */
module FormValues {
  import opened Common

  datatype Answer = Text(s: string) | List(items: seq<string>)

  /** `!!answer`: an empty text is falsy, every array is truthy. */
  predicate Truthy(a: Answer) {
    match a
    case Text(s) => s != ""
    case List(_) => true
  }

  /** `answer.length`. */
  function Length(a: Answer): nat {
    match a
    case Text(s) => |s|
    case List(items) => |items|
  }

  /** The property name an answer denotes when used as an object key
      (String() of it: a list becomes its ','-join). */
  function KeyString(a: Answer): string {
    match a
    case Text(s) => s
    case List(items) => Join(items, ",")
  }

  /** `list.filter(v => v !== option)`. */
  function Without(list: seq<string>, option: string): (r: seq<string>)
    ensures option !in r
    ensures forall x :: x != option ==> (x in r <==> x in list)
    ensures |r| <= |list|
  {
    if |list| == 0 then []
    else if list[0] == option then Without(list[1..], option)
    else [list[0]] + Without(list[1..], option)
  }

  /** Selecting an option: remove it if chosen, otherwise append it. */
  function Toggle(list: seq<string>, option: string): (r: seq<string>)
    ensures option in r <==> option !in list
    ensures forall x :: x != option ==> (x in r <==> x in list)
    ensures option !in list ==> r == list + [option]
  {
    if option in list then Without(list, option) else list + [option]
  }

  lemma {:induction false} WithoutAbsent(list: seq<string>, option: string)
    requires option !in list
    ensures Without(list, option) == list
  {
    if |list| > 0 {
      WithoutAbsent(list[1..], option);
    }
  }

  /** Toggling an unchosen option twice gives back exactly the list the
      user started from, order included. */
  lemma ToggleTwiceRestores(list: seq<string>, option: string)
    requires option !in list
    ensures Toggle(Toggle(list, option), option) == list
  {
    WithoutAppended(list, option);
  }

  lemma {:induction false} WithoutAppended(list: seq<string>, option: string)
    requires option !in list
    ensures Without(list + [option], option) == list
  {
    if |list| == 0 {
      assert [option][1..] == [];
    } else {
      assert (list + [option])[1..] == list[1..] + [option];
      WithoutAppended(list[1..], option);
    }
  }

  /** Toggling twice restores membership of every option, chosen or not. */
  lemma ToggleTwiceMembership(list: seq<string>, option: string, x: string)
    ensures x in Toggle(Toggle(list, option), option) <==> x in list
  {
  }

  /** The options offered for a variety question once `category` has been
      answered: the table's entry for it, or none when it has no entry. */
  function VarietyOptions(categories: map<string, seq<string>>, category: Answer): (r: seq<string>)
    ensures KeyString(category) in categories ==> r == categories[KeyString(category)]
    ensures KeyString(category) !in categories ==> r == []
  {
    if KeyString(category) in categories then categories[KeyString(category)] else []
  }
}
