/** The text handleCopyShoppingList puts on the clipboard: a header, then one line per item,
    joined with newlines. The clipboard write and the "copied" timer are not modelled. */
module ShoppingText {
  import opened Types

  const Title: string := "My Shopping List:"
  const Header: string := "My Shopping List:\n\n"

  /** App.tsx:215: a missing quantity is interpolated as the word undefined. */
  function QuantityText(q: Option<string>): string {
    match q
    case None => "undefined"
    case Some(s) => s
  }

  /** App.tsx:215: the recipe name in brackets when it is a non-empty string, otherwise nothing. */
  function RecipeTag(recipeName: Option<string>): string {
    if Truthy(recipeName) then "[" + recipeName.value + "]" else ""
  }

  function CheckBox(checked: bool): string {
    if checked then "- [x] " else "- [ ] "
  }

  /** One item's line: check box, name, quantity in parentheses, then the recipe tag. */
  function Line(it: ShoppingItem): string {
    CheckBox(it.checked) + it.name + " (" + QuantityText(it.quantity) + ") " + RecipeTag(it.recipeName)
  }

  function Lines(items: seq<ShoppingItem>): (ls: seq<string>)
    ensures |ls| == |items|
  {
    seq(|items|, i requires 0 <= i < |items| => Line(items[i]))
  }

  /** `Array.prototype.join('\n')` */
  function JoinLines(ls: seq<string>): string {
    if ls == [] then ""
    else if |ls| == 1 then ls[0]
    else ls[0] + "\n" + JoinLines(ls[1..])
  }

  function CopyText(items: seq<ShoppingItem>): string {
    Header + JoinLines(Lines(items))
  }

  /** Splitting a text at every newline: the inverse of JoinLines for newline-free lines. */
  function SplitLines(s: string): (ls: seq<string>)
    ensures |ls| >= 1
  {
    if s == [] then [""]
    else if s[0] == '\n' then [""] + SplitLines(s[1..])
    else
      var rest := SplitLines(s[1..]);
      [[s[0]] + rest[0]] + rest[1..]
  }

  predicate NoNewline(s: string) {
    forall i :: 0 <= i < |s| ==> s[i] != '\n'
  }

  /** An item whose own text cannot break its line. */
  predicate SingleLine(it: ShoppingItem) {
    NoNewline(it.name) &&
    (it.quantity.Some? ==> NoNewline(it.quantity.value)) &&
    (it.recipeName.Some? ==> NoNewline(it.recipeName.value))
  }

  lemma {:induction false} SplitNewlineFree(a: string, rest: string)
    requires NoNewline(a)
    ensures SplitLines(a + "\n" + rest) == [a] + SplitLines(rest)
    ensures SplitLines(a) == [a]
  {
    if a == [] {
      assert a + "\n" + rest == "\n" + rest;
    } else {
      assert (a + "\n" + rest)[1..] == a[1..] + "\n" + rest;
      SplitNewlineFree(a[1..], rest);
      assert [a[0]] + a[1..] == a;
    }
  }

  /** Splitting undoes joining whenever no line holds a newline. */
  lemma {:induction false} SplitJoin(ls: seq<string>)
    requires ls != []
    requires forall i :: 0 <= i < |ls| ==> NoNewline(ls[i])
    ensures SplitLines(JoinLines(ls)) == ls
  {
    if |ls| == 1 {
      SplitNewlineFree(ls[0], "");
    } else {
      SplitJoin(ls[1..]);
      SplitNewlineFree(ls[0], JoinLines(ls[1..]));
    }
  }

  lemma LineSingle(it: ShoppingItem)
    requires SingleLine(it)
    ensures NoNewline(Line(it))
  {
  }

  /** Reading the copied text back line by line gives the header lines and then exactly one
      line per item, in list order. */
  lemma CopyTextLines(items: seq<ShoppingItem>)
    requires items != []
    requires forall i :: 0 <= i < |items| ==> SingleLine(items[i])
    ensures SplitLines(CopyText(items)) == [Title, ""] + Lines(items)
  {
    var ls := Lines(items);
    forall i | 0 <= i < |ls| ensures NoNewline(ls[i]) {
      LineSingle(items[i]);
    }
    SplitJoin(ls);
    SplitAfterHeader(JoinLines(ls));
  }

  /** The header contributes its title line and one empty line. */
  lemma SplitAfterHeader(body: string)
    ensures SplitLines(Header + body) == [Title, ""] + SplitLines(body)
  {
    assert Header == Title + "\n" + "\n";
    assert NoNewline(Title);
    SplitAfterTitle(Title, body);
  }

  lemma SplitAfterTitle(title: string, body: string)
    requires NoNewline(title)
    ensures SplitLines(title + "\n" + "\n" + body) == [title, ""] + SplitLines(body)
  {
    assert title + "\n" + "\n" + body == title + "\n" + ("\n" + body);
    SplitNewlineFree(title, "\n" + body);
    assert "" + "\n" + body == "\n" + body;
    SplitNewlineFree("", body);
  }

  /** An empty list copies as the header alone. */
  lemma CopyTextEmpty()
    ensures CopyText([]) == "My Shopping List:\n\n"
  {
  }

  /** Appending an item appends a newline and its line. */
  lemma {:induction false} CopyTextAppend(items: seq<ShoppingItem>, it: ShoppingItem)
    requires items != []
    ensures CopyText(items + [it]) == CopyText(items) + "\n" + Line(it)
  {
    LinesAppend(items, it);
    JoinAppend(Lines(items), Line(it));
  }

  lemma LinesAppend(items: seq<ShoppingItem>, it: ShoppingItem)
    ensures Lines(items + [it]) == Lines(items) + [Line(it)]
  {
    assert forall i :: 0 <= i < |items| ==> (items + [it])[i] == items[i];
  }

  lemma {:induction false} JoinAppend(ls: seq<string>, l: string)
    requires ls != []
    ensures JoinLines(ls + [l]) == JoinLines(ls) + "\n" + l
  {
    if |ls| == 1 {
      assert (ls + [l])[1..] == [l];
    } else {
      assert (ls + [l])[1..] == ls[1..] + [l];
      JoinAppend(ls[1..], l);
    }
  }

  /** A line starts with "- [x] " exactly when its item is checked, and "- [ ] " otherwise. */
  lemma LineCheckBox(it: ShoppingItem)
    ensures |Line(it)| >= 6
    ensures Line(it)[..6] == "- [x] " <==> it.checked
    ensures Line(it)[..6] == "- [ ] " <==> !it.checked
  {
    assert Line(it)[..6] == CheckBox(it.checked);
  }

  /** The two-item example, read back line by line: the header lines, an unchecked untagged
      line that keeps its trailing space, then a checked line tagged with its recipe. */
  lemma CopyTextExample()
    ensures SplitLines(CopyText([
      ShoppingItem("a", "Rice", Some("2 cups"), false, None),
      ShoppingItem("b", "Dal", Some("1 cup"), true, Some("Dal Tadka"))]))
      == [Title, "", "- [ ] Rice (2 cups) ", "- [x] Dal (1 cup) [Dal Tadka]"]
  {
    var rice := ShoppingItem("a", "Rice", Some("2 cups"), false, None);
    var dal := ShoppingItem("b", "Dal", Some("1 cup"), true, Some("Dal Tadka"));
    ExampleLines(rice, dal);
    CopyTextLines([rice, dal]);
  }

  lemma ExampleLines(rice: ShoppingItem, dal: ShoppingItem)
    requires rice == ShoppingItem("a", "Rice", Some("2 cups"), false, None)
    requires dal == ShoppingItem("b", "Dal", Some("1 cup"), true, Some("Dal Tadka"))
    ensures SingleLine(rice) && SingleLine(dal)
    ensures Lines([rice, dal]) == ["- [ ] Rice (2 cups) ", "- [x] Dal (1 cup) [Dal Tadka]"]
  {
    RiceLine(rice);
    DalLine(dal);
  }

  lemma RiceLine(rice: ShoppingItem)
    requires rice == ShoppingItem("a", "Rice", Some("2 cups"), false, None)
    ensures SingleLine(rice) && Line(rice) == "- [ ] Rice (2 cups) "
  {
  }

  lemma DalLine(dal: ShoppingItem)
    requires dal == ShoppingItem("b", "Dal", Some("1 cup"), true, Some("Dal Tadka"))
    ensures SingleLine(dal) && Line(dal) == "- [x] Dal (1 cup) [Dal Tadka]"
  {
  }
}
