/**
  The block of business metrics written into the analysis prompt: one line
  per key of the input record, in the record's key order, each reading
  "- <label>: <value>". How a number is printed is a parameter here
  (`render`).
*/
module Prompt {
  import opened Wrappers
  import opened Text
  import opened Types
  import opened App
  import opened KeyLabels

  /** One key of the record with its value. */
  datatype Entry = Entry(field: FieldName, value: real)

  /**
    `Object.entries(inputs)`: the keys in the order the application's
    records list them, then `employees` when the record has one.
  */
  function Entries(inputs: Inputs): seq<Entry> {
    var order := EntryOrder(IndustryOf(inputs));
    seq(|order|, k requires 0 <= k < |order| => Entry(order[k], Value(inputs, order[k]).value)) +
    match inputs.base.employees {
      case None => []
      case Some(n) => [Entry(Employees, n)]
    }
  }

  lemma EntriesShape(inputs: Inputs)
    ensures var order, r := EntryOrder(IndustryOf(inputs)), Entries(inputs);
      && |r| == |order| + (if inputs.base.employees.Some? then 1 else 0)
      && (forall k :: 0 <= k < |order| ==> r[k] == Entry(order[k], Value(inputs, order[k]).value))
      && (inputs.base.employees.Some? ==> r[|order|] == Entry(Employees, inputs.base.employees.value))
  {
  }

  /** A key has an entry exactly when the record holds it. */
  lemma EntriesAreTheKeys(inputs: Inputs, f: FieldName)
    ensures var r := Entries(inputs);
      Value(inputs, f).Some? <==> exists k :: 0 <= k < |r| && r[k].field == f
  {
    var order, r := EntryOrder(IndustryOf(inputs)), Entries(inputs);
    EntriesShape(inputs);
    if Value(inputs, f).Some? {
      if f == Employees {
        assert r[|order|].field == f;
      } else {
        assert f in order;
        var k :| 0 <= k < |order| && order[k] == f;
        assert r[k].field == f;
      }
    } else {
      forall k | 0 <= k < |r|
        ensures r[k].field != f
      {
        if k < |order| {
          assert order[k] in order;
        }
      }
    }
  }

  /** Every entry carries the value stored under its key. */
  lemma EntriesCarryValues(inputs: Inputs)
    ensures var r := Entries(inputs);
      forall k :: 0 <= k < |r| ==> Value(inputs, r[k].field) == Some(r[k].value)
  {
    var order := EntryOrder(IndustryOf(inputs));
    EntriesShape(inputs);
    assert forall k :: 0 <= k < |order| ==> order[k] in order;
  }

  /** No key has two entries. */
  lemma EntriesDistinct(inputs: Inputs)
    ensures var r := Entries(inputs);
      forall j, k :: 0 <= j < k < |r| ==> r[j].field != r[k].field
  {
    var order := EntryOrder(IndustryOf(inputs));
    EntriesShape(inputs);
    assert forall k :: 0 <= k < |order| ==> order[k] in order;
  }

  /** `- ${label}: ${value}`. */
  function FormatLine(key: string, value: string): string {
    "- " + KeyLabel(key) + ": " + value
  }

  function Lines(inputs: Inputs, render: real -> string): (lines: seq<string>)
    ensures |lines| == |Entries(inputs)|
    ensures forall k :: 0 <= k < |lines| ==>
      lines[k] == FormatLine(Key(Entries(inputs)[k].field), render(Entries(inputs)[k].value))
  {
    var entries := Entries(inputs);
    seq(|entries|, k requires 0 <= k < |entries| => FormatLine(Key(entries[k].field), render(entries[k].value)))
  }

  /** `formatInputs`: the lines joined by newlines, with no newline at the end. */
  function FormatInputs(inputs: Inputs, render: real -> string): string {
    JoinWith(Lines(inputs, render), "\n")
  }

  /** The line of a key made of letters breaks only where its printed value does. */
  lemma FormatLineOneLine(key: string, value: string)
    requires AsciiLetters(key) && '\n' !in value
    ensures '\n' !in FormatLine(key, value)
  {
    KeyLabelOneLine(key);
  }

  /**
    As long as no printed number contains a newline, the block has exactly one
    line per key of the record, in order, and each reads "- <label>: <value>".
  */
  lemma FormatInputsLines(inputs: Inputs, render: real -> string)
    requires forall v :: '\n' !in render(v)
    ensures SplitOn(FormatInputs(inputs, render), "\n") == Lines(inputs, render)
  {
    var lines := Lines(inputs, render);
    forall p | p in lines
      ensures '\n' !in p
    {
      var k :| 0 <= k < |lines| && lines[k] == p;
      var e := Entries(inputs)[k];
      KeyLetters(e.field);
      FormatLineOneLine(Key(e.field), render(e.value));
    }
    SplitJoinChar(lines, '\n');
  }

  /** Every record has at least its wage, so the block is never empty. */
  lemma EntriesNonEmpty(inputs: Inputs)
    ensures |Entries(inputs)| >= 1
  {
    assert |EntryOrder(IndustryOf(inputs))| >= 1;
  }
}
