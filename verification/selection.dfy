/**
 * `select_character`: reads names until one is a key of the character map.
 * The console is a sequence of attempted lines; the prompts are not modelled.
 */
module Selection {
  import opened Optional

  /** The outcome of a successful selection: the chosen name and how many
      input lines were read to reach it. */
  datatype Choice = Choice(name: string, consumed: nat)

  /** The position of the first attempt that names a member, if any. */
  function FirstMember(names: set<string>, attempts: seq<string>): (r: Option<nat>)
    ensures r.Some? ==> r.value < |attempts| && attempts[r.value] in names
    ensures r.Some? ==> forall j :: 0 <= j < r.value ==> attempts[j] !in names
    ensures r.None? <==> forall j :: 0 <= j < |attempts| ==> attempts[j] !in names
  {
    if |attempts| == 0 then None
    else if attempts[0] in names then Some(0)
    else match FirstMember(names, attempts[1..])
      case None => None
      case Some(k) => Some(k + 1)
  }

  /** The loop starts from the empty name, so an empty key would be chosen
      without reading anything; otherwise the first member among the attempts
      is chosen. `None` means the input ran out before a member was typed. */
  function Select(names: set<string>, attempts: seq<string>): (r: Option<Choice>)
    ensures r.Some? ==> r.value.name in names && r.value.consumed <= |attempts|
    ensures r.Some? && r.value.consumed == 0 ==> r.value.name == ""
    ensures r.Some? && r.value.consumed > 0 ==> attempts[r.value.consumed - 1] == r.value.name
    ensures r.Some? && r.value.consumed > 0 ==> "" !in names
    ensures r.Some? ==> forall j :: 0 <= j < r.value.consumed - 1 ==> attempts[j] !in names
    ensures r.None? <==> "" !in names && forall j :: 0 <= j < |attempts| ==> attempts[j] !in names
  {
    if "" in names then Some(Choice("", 0))
    else match FirstMember(names, attempts)
      case None => None
      case Some(k) => Some(Choice(attempts[k], k + 1))
  }

  /** The validation loop itself, as written: keep reading while the last
      name read is not a key. */
  method SelectCharacter(names: set<string>, attempts: seq<string>) returns (r: Option<Choice>)
    ensures r == Select(names, attempts)
    ensures r.Some? ==> r.value.name in names
  {
    var selected := "";
    var i := 0;
    while selected !in names && i < |attempts|
      invariant 0 <= i <= |attempts|
      invariant i == 0 ==> selected == ""
      invariant i > 0 ==> selected == attempts[i - 1] && "" !in names
      invariant forall j :: 0 <= j < i - 1 ==> attempts[j] !in names
    {
      selected := attempts[i];
      i := i + 1;
    }
    if selected in names {
      r := Some(Choice(selected, i));
    } else {
      r := None;
    }
  }
}
