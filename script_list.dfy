/** Keyboard handling of the script list (source/components/ScriptList.tsx). */
module ScriptList {
  import opened Scripts

  /** A key event as the text-UI library delivers it, already decoded. */
  datatype Key = UpArrow | DownArrow | Return | Tab | Escape | Other

  /** What the list's input handler asks its parent to do: nothing, move the
      selection (`onSelectionChange`) or run a script by name (`onExecuteScript`). */
  datatype ListAction = NoAction | SelectionChange(index: int) | ExecuteScript(name: string)

  /** Index after an up-arrow: one up, or from the top to the last entry. */
  function NextUp(selectedIndex: int, length: int): (next: int)
    ensures 0 <= selectedIndex < length ==> next == (selectedIndex - 1) % length
  {
    if selectedIndex > 0 then selectedIndex - 1 else length - 1
  }

  /** Index after a down-arrow: one down, or from the last entry to the top. */
  function NextDown(selectedIndex: int, length: int): (next: int)
    ensures 0 <= selectedIndex < length ==> next == (selectedIndex + 1) % length
  {
    if selectedIndex < length - 1 then selectedIndex + 1 else 0
  }

  /** The `useInput` handler: nothing on an empty list; the arrows move the selection;
      Return runs the selected script's name when that index holds a script; every
      other key is ignored. */
  function HandleKey(scripts: seq<Script>, selectedIndex: int, key: Key): (action: ListAction)
    ensures scripts == [] ==> action == NoAction
    ensures action.SelectionChange? <==> scripts != [] && (key == UpArrow || key == DownArrow)
    ensures action.SelectionChange? && 0 <= selectedIndex < |scripts| ==> 0 <= action.index < |scripts|
    ensures scripts != [] && key == UpArrow ==> action == SelectionChange(NextUp(selectedIndex, |scripts|))
    ensures scripts != [] && key == DownArrow ==> action == SelectionChange(NextDown(selectedIndex, |scripts|))
    ensures action.ExecuteScript? <==> key == Return && 0 <= selectedIndex < |scripts|
    ensures action.ExecuteScript? ==> action.name == scripts[selectedIndex].name
  {
    if |scripts| == 0 then NoAction
    else match key
      case UpArrow => SelectionChange(NextUp(selectedIndex, |scripts|))
      case DownArrow => SelectionChange(NextDown(selectedIndex, |scripts|))
      case Return => if 0 <= selectedIndex < |scripts| then ExecuteScript(scripts[selectedIndex].name) else NoAction
      case _ => NoAction
  }

  /** On a non-empty list both arrows keep an in-range index in range, and they wrap:
      up from the top goes to the last entry, down from the last entry to the top. */
  lemma ArrowsStayInRange(selectedIndex: int, length: int)
    requires 0 <= selectedIndex < length
    ensures 0 <= NextUp(selectedIndex, length) < length
    ensures 0 <= NextDown(selectedIndex, length) < length
    ensures selectedIndex == 0 ==> NextUp(selectedIndex, length) == length - 1
    ensures selectedIndex == length - 1 ==> NextDown(selectedIndex, length) == 0
  {
  }

  /** For an in-range index, up then down and down then up return to where they began. */
  lemma UpDownInverse(selectedIndex: int, length: int)
    requires 0 <= selectedIndex < length
    ensures NextDown(NextUp(selectedIndex, length), length) == selectedIndex
    ensures NextUp(NextDown(selectedIndex, length), length) == selectedIndex
  {
  }

  /** Return hands over the script's name, not its command. */
  lemma ReturnRunsSelectedName(scripts: seq<Script>, selectedIndex: int)
    requires 0 <= selectedIndex < |scripts|
    ensures HandleKey(scripts, selectedIndex, Return) == ExecuteScript(scripts[selectedIndex].name)
  {
  }
}
