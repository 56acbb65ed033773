/**
 * Rendering of the rows read for one category (activities, restaurants or hotels)
 * into the bullet list that the prompt quotes: one `- name: description` line per
 * row, joined with newlines, or a category-specific sentence when there are no rows.
 */
module Catalog {
  import opened Wrappers
  import opened Js

  /** A row as the data store returns it; a column the row lacks is `Undefined`. */
  datatype Row = Row(name: JsValue, description: JsValue)

  datatype Category = Activities | Restaurants | Hotels

  /** Stands in for a missing or empty description ("no description"). */
  const NoDescription: string := "ไม่มีคำอธิบาย"

  /** The sentence that replaces an absent or empty list ("no <category> data in this province"). */
  function Placeholder(c: Category): (p: string)
    ensures p != "" && p[0] != '-'
  {
    match c
    case Activities => "ไม่มีข้อมูลกิจกรรมในจังหวัดนี้"
    case Restaurants => "ไม่มีข้อมูลร้านอาหารในจังหวัดนี้"
    case Hotels => "ไม่มีข้อมูลโรงแรมในจังหวัดนี้"
  }

  /** The text of `description || NoDescription` inside a template literal. */
  function Description(v: JsValue): (d: string)
    ensures d != ""
  {
    if Truthy(v) then Text(v) else NoDescription
  }

  /** The bullet line of one row. */
  function Line(r: Row): (l: string)
    ensures |l| > 2 && l[..2] == "- "
  {
    "- " + Text(r.name) + ": " + Description(r.description)
  }

  /** `rows.map(Line)`. */
  function Lines(rows: seq<Row>): (ls: seq<string>)
    ensures |ls| == |rows|
    ensures forall i :: 0 <= i < |rows| ==> ls[i] == Line(rows[i])
  {
    if rows == [] then [] else [Line(rows[0])] + Lines(rows[1..])
  }

  /**
   * `rows?.length ? rows.map(Line).join('\n') : Placeholder(c)`. The result is never
   * empty, and it is the placeholder exactly when there are no rows: a rendered
   * list starts with "- ", which no placeholder does.
   */
  function Render(rows: Option<seq<Row>>, c: Category): (text: string)
    ensures text != ""
    ensures text == Placeholder(c) <==> rows.None? || |rows.value| == 0
  {
    if rows.Some? && |rows.value| > 0 then
      var ls := Lines(rows.value);
      JoinStartsWith(ls, "\n");
      assert Join(ls, "\n")[0] == ls[0][..2][0];
      Join(ls, "\n")
    else
      Placeholder(c)
  }

  /** A line shows the description when it is a non-empty string, and the placeholder when it is missing or empty. */
  lemma LineDescription(r: Row)
    ensures r.description.Str? && r.description.s != "" ==> Line(r) == "- " + Text(r.name) + ": " + r.description.s
    ensures r.description in {Undefined, Null, Str("")} ==> Line(r) == "- " + Text(r.name) + ": " + NoDescription
  {
  }

  /**
   * A rendered list is built row by row in input order: a single row renders to its
   * line alone, and a further row adds a newline and its line at the end, so no
   * separator follows the last line.
   */
  lemma RenderLast(rows: seq<Row>, c: Category)
    requires |rows| >= 1
    ensures Render(Some(rows), c) ==
      if |rows| == 1 then Line(rows[0])
      else Render(Some(rows[..|rows| - 1]), c) + "\n" + Line(rows[|rows| - 1])
  {
    var n := |rows|;
    if n == 1 {
      assert Lines(rows) == [Line(rows[0])];
    } else {
      var init, last := rows[..n - 1], rows[n - 1];
      assert rows == init + [last];
      LinesSnoc(init, last);
      JoinSnoc(Lines(init), Line(last), "\n");
    }
  }

  /** Mapping one more row adds that row's line at the end. */
  lemma LinesSnoc(rows: seq<Row>, x: Row)
    ensures Lines(rows + [x]) == Lines(rows) + [Line(x)]
  {
    var ls, li := Lines(rows + [x]), Lines(rows);
    forall k | 0 <= k < |ls|
      ensures ls[k] == (li + [Line(x)])[k]
    {
      if k < |li| { assert (rows + [x])[k] == rows[k]; }
    }
  }

  /**
   * When no name or description holds a newline, splitting a rendered list at newlines
   * gives back exactly one line per row, in input order.
   */
  lemma RenderSplitsIntoLines(rows: seq<Row>, c: Category)
    requires |rows| >= 1
    requires forall i :: 0 <= i < |rows| ==>
      '\n' !in Text(rows[i].name) && '\n' !in Description(rows[i].description)
    ensures Split(Render(Some(rows), c), '\n') == Lines(rows)
    ensures |Split(Render(Some(rows), c), '\n')| == |rows|
  {
    var ls := Lines(rows);
    forall i | 0 <= i < |ls|
      ensures '\n' !in ls[i]
    {
      assert ls[i] == "- " + Text(rows[i].name) + ": " + Description(rows[i].description);
    }
    SplitJoin(ls, '\n');
    assert Render(Some(rows), c) == Join(ls, "\n");
  }

  /** Every row's line appears verbatim in the rendered list. */
  lemma LineInSection(rows: seq<Row>, c: Category, i: nat)
    requires i < |rows|
    ensures Occurs(Line(rows[i]), Render(Some(rows), c), PartOffset(Lines(rows), "\n", i))
  {
    JoinPartAt(Lines(rows), "\n", i);
  }
}
