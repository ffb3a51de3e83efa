/**
  The labels of the analysis prompt's metric lines: a camelCase key spelled
  out with a space before every capital letter, then trimmed.
*/
module KeyLabels {
  import opened Text
  import opened Types

  predicate IsUpper(c: char) {
    'A' <= c <= 'Z'
  }

  /** A capital gets a space in front of it. */
  function SpaceBefore(c: char): string {
    if IsUpper(c) then [' ', c] else [c]
  }

  /** `key.replace(/([A-Z])/g, ' $1')`: a space goes in front of every capital. */
  function SpaceBeforeCapitals(s: string): (r: string)
    ensures forall k :: 0 <= k < |r| ==> r[k] == ' ' || r[k] in s
    decreases |s|
  {
    if s == [] then []
    else
      var rest := SpaceBeforeCapitals(s[1..]);
      assert forall c :: c in s[1..] ==> c in s;
      SpaceBefore(s[0]) + rest
  }

  /** `s` without its spaces. */
  function RemoveSpaces(s: string): (r: string)
    ensures |r| <= |s| && ' ' !in r
    decreases |s|
  {
    if s == [] then [] else (if s[0] == ' ' then [] else [s[0]]) + RemoveSpaces(s[1..])
  }

  lemma {:induction false} RemoveSpacesAppend(a: string, b: string)
    ensures RemoveSpaces(a + b) == RemoveSpaces(a) + RemoveSpaces(b)
    decreases |a|
  {
    if a == [] {
      assert a + b == b;
    } else {
      assert (a + b)[0] == a[0] && (a + b)[1..] == a[1..] + b;
      RemoveSpacesAppend(a[1..], b);
    }
  }

  lemma {:induction false} RemoveSpacesOfSpaces(s: string)
    requires forall k :: 0 <= k < |s| ==> s[k] == ' '
    ensures RemoveSpaces(s) == []
    decreases |s|
  {
    if s != [] {
      RemoveSpacesOfSpaces(s[1..]);
    }
  }

  /** The inserted spaces are all that is added. */
  lemma {:induction false} RemoveSpacesOfSpaced(s: string)
    ensures RemoveSpaces(SpaceBeforeCapitals(s)) == RemoveSpaces(s)
    decreases |s|
  {
    if s != [] {
      var head := SpaceBefore(s[0]);
      RemoveSpacesAppend(head, SpaceBeforeCapitals(s[1..]));
      RemoveSpacesOfSpaced(s[1..]);
      if IsUpper(s[0]) {
        assert RemoveSpaces(head) == [s[0]] by {
          assert head[1..] == [s[0]];
          assert RemoveSpaces([s[0]]) == [s[0]] + RemoveSpaces([]);
        }
      }
    }
  }

  /** The label of a key: `key.replace(/([A-Z])/g, ' $1').trim()`. */
  function KeyLabel(key: string): string {
    Trim(SpaceBeforeCapitals(key))
  }

  /** Every character of a label is a space or a character of the key. */
  lemma KeyLabelCharacters(key: string)
    ensures forall k :: 0 <= k < |KeyLabel(key)| ==> KeyLabel(key)[k] == ' ' || KeyLabel(key)[k] in key
  {
    var spaced := SpaceBeforeCapitals(key);
    var i, j := TrimBounds(spaced);
    forall k | 0 <= k < |KeyLabel(key)|
      ensures KeyLabel(key)[k] == ' ' || KeyLabel(key)[k] in key
    {
      assert KeyLabel(key)[k] == spaced[i + k];
    }
  }

  /** Spacing out the capitals of a word of letters puts in no whitespace but spaces. */
  lemma SpacedWhitespace(key: string)
    requires AsciiLetters(key)
    ensures var spaced := SpaceBeforeCapitals(key);
      forall k :: 0 <= k < |spaced| && IsWhitespace(spaced[k]) ==> spaced[k] == ' '
  {
    var spaced := SpaceBeforeCapitals(key);
    forall k | 0 <= k < |spaced| && spaced[k] != ' '
      ensures !IsWhitespace(spaced[k])
    {
      var m :| 0 <= m < |key| && key[m] == spaced[k];
    }
  }

  lemma RemoveSpacesOfPadded(front: string, middle: string, back: string)
    requires RemoveSpaces(front) == [] && RemoveSpaces(back) == []
    ensures RemoveSpaces(front + middle + back) == RemoveSpaces(middle)
  {
    calc {
      RemoveSpaces(front + middle + back);
      { RemoveSpacesAppend(front + middle, back); }
      RemoveSpaces(front + middle) + RemoveSpaces(back);
      { RemoveSpacesAppend(front, middle); }
      RemoveSpaces(front) + RemoveSpaces(middle) + RemoveSpaces(back);
      RemoveSpaces(middle);
    }
  }

  lemma ThreeSlices(s: string, i: nat, j: nat)
    requires i <= j <= |s|
    ensures s == s[..i] + s[i..j] + s[j..]
  {
    assert s[..j] == s[..i] + s[i..j];
    assert s == s[..j] + s[j..];
  }

  /** Cutting spaces off both ends of a text leaves its spaceless form as it was. */
  lemma RemoveSpacesOfInfix(s: string, i: nat, j: nat)
    requires i <= j <= |s|
    requires forall k :: 0 <= k < i ==> s[k] == ' '
    requires forall k :: j <= k < |s| ==> s[k] == ' '
    ensures RemoveSpaces(s[i..j]) == RemoveSpaces(s)
  {
    var front, middle, back := s[..i], s[i..j], s[j..];
    assert forall k :: 0 <= k < |front| ==> front[k] == ' ';
    RemoveSpacesOfSpaces(front);
    assert forall k :: 0 <= k < |back| ==> back[k] == ' ';
    RemoveSpacesOfSpaces(back);
    RemoveSpacesOfPadded(front, middle, back);
    ThreeSlices(s, i, j);
  }

  /** Trimming a text whose only whitespace is spaces removes only spaces. */
  lemma RemoveSpacesOfTrim(s: string)
    requires forall k :: 0 <= k < |s| && IsWhitespace(s[k]) ==> s[k] == ' '
    ensures RemoveSpaces(Trim(s)) == RemoveSpaces(s)
  {
    var i, j := TrimBounds(s);
    RemoveSpacesOfInfix(s, i, j);
  }

  /** For a key of letters only, dropping the label's spaces gives the key back. */
  lemma KeyLabelRemoveSpaces(key: string)
    requires AsciiLetters(key)
    ensures RemoveSpaces(KeyLabel(key)) == key
  {
    SpacedWhitespace(key);
    RemoveSpacesOfTrim(SpaceBeforeCapitals(key));
    RemoveSpacesOfSpaced(key);
    LettersHaveNoSpaces(key);
  }

  lemma {:induction false} LettersHaveNoSpaces(s: string)
    requires AsciiLetters(s)
    ensures RemoveSpaces(s) == s
    decreases |s|
  {
    if s != [] {
      LettersHaveNoSpaces(s[1..]);
      assert s == [s[0]] + s[1..];
    }
  }

  lemma BaseKeysLetters()
    ensures AsciiLetters("employees") && AsciiLetters("avgHourlyWage")
  {
  }

  lemma InvoiceKeysLetters()
    ensures AsciiLetters("invoicesPerMonth") && AsciiLetters("minutesPerInvoice") && AsciiLetters("avgInvoiceValue")
  {
  }

  lemma FieldServiceKeysLetters()
    ensures AsciiLetters("missedCallsPerWeek") && AsciiLetters("avgJobValue")
    ensures AsciiLetters("noShowRate") && AsciiLetters("jobsPerMonth")
  {
  }

  lemma DentalKeysLetters()
    ensures AsciiLetters("patientsPerMonth") && AsciiLetters("minutesPerVerification") && AsciiLetters("avgAppointmentValue")
  {
  }

  lemma AccountingKeysLetters()
    ensures AsciiLetters("clients") && AsciiLetters("hoursPerClientReconciliation") && AsciiLetters("billableRate")
  {
  }

  /** Every key of an input record is made of letters only. */
  lemma KeyLetters(f: FieldName)
    ensures AsciiLetters(Key(f))
  {
    BaseKeysLetters();
    InvoiceKeysLetters();
    FieldServiceKeysLetters();
    DentalKeysLetters();
    AccountingKeysLetters();
  }

  /** Every label of the block spells out its key: without its spaces it is the key again. */
  lemma LabelSpellsKey(f: FieldName)
    ensures RemoveSpaces(KeyLabel(Key(f))) == Key(f)
  {
    KeyLetters(f);
    KeyLabelRemoveSpaces(Key(f));
  }

  lemma {:induction false} SpaceBeforeCapitalsAppend(a: string, b: string)
    ensures SpaceBeforeCapitals(a + b) == SpaceBeforeCapitals(a) + SpaceBeforeCapitals(b)
    decreases |a|
  {
    if a == [] {
      assert a + b == b;
    } else {
      assert (a + b)[0] == a[0] && (a + b)[1..] == a[1..] + b;
      SpaceBeforeCapitalsAppend(a[1..], b);
    }
  }

  lemma AvgSpaced()
    ensures SpaceBeforeCapitals("avg") == "avg"
  {
  }

  lemma HourlySpaced()
    ensures SpaceBeforeCapitals("Hourly") == " Hourly"
  {
  }

  lemma WageSpaced()
    ensures SpaceBeforeCapitals("Wage") == " Wage"
  {
  }

  lemma WageSpelling()
    ensures "avgHourlyWage" == "avg" + "Hourly" + "Wage"
    ensures "avg" + " Hourly" + " Wage" == "avg Hourly Wage"
  {
  }

  lemma WageLabelTrimmed()
    ensures TrimStart("avg Hourly Wage") == "avg Hourly Wage"
    ensures TrimEnd("avg Hourly Wage") == "avg Hourly Wage"
  {
  }

  /** The wage key is spelled out with a space before each capital. */
  lemma WageLabel()
    ensures KeyLabel("avgHourlyWage") == "avg Hourly Wage"
  {
    WageSpelling();
    SpaceBeforeCapitalsAppend("avg" + "Hourly", "Wage");
    SpaceBeforeCapitalsAppend("avg", "Hourly");
    AvgSpaced();
    HourlySpaced();
    WageSpaced();
    WageLabelTrimmed();
  }

  /** No label holds a line break. */
  lemma KeyLabelOneLine(key: string)
    requires AsciiLetters(key)
    ensures '\n' !in KeyLabel(key)
  {
    KeyLabelCharacters(key);
    var shown := KeyLabel(key);
    assert '\n' !in key;
    forall k | 0 <= k < |shown|
      ensures shown[k] != '\n'
    {
    }
  }
}
