/**
 * The two computations of the instrument sidebar
 * (src/components/panels/Sidebar.tsx): the MM:SS recording-time label and
 * the grouping of the instrument list by General MIDI category. The
 * recording time is a whole number of seconds (the recorder counts it up
 * from 0 once a second), so it is a `nat` here.
 */
module Sidebar {
  import opened Types

  // ---------------------------------------------------------------------
  // Decimal digits, `Number.prototype.toString` and `padStart`
  // ---------------------------------------------------------------------

  predicate IsDigit(c: char) {
    '0' <= c <= '9'
  }

  predicate AllDigits(s: string) {
    forall i :: 0 <= i < |s| ==> IsDigit(s[i])
  }

  function DigitChar(d: nat): (c: char)
    requires d < 10
    ensures IsDigit(c) && c as int - '0' as int == d
  {
    ('0' as int + d) as char
  }

  /** The value of a string of decimal digits, most significant first. */
  function DigitsValue(s: string): int {
    if s == [] then 0
    else DigitsValue(s[..|s| - 1]) * 10 + (s[|s| - 1] as int - '0' as int)
  }

  /** `n.toString()` for a non-negative integer: its decimal digits, without
      leading zeros. */
  function NatToString(n: nat): (s: string)
    ensures AllDigits(s) && 1 <= |s|
    ensures |s| == 1 <==> n < 10
    ensures n < 100 ==> |s| <= 2
    ensures n >= 100 ==> |s| >= 3
  {
    if n < 10 then [DigitChar(n)] else NatToString(n / 10) + [DigitChar(n % 10)]
  }

  /** Reading the digits back gives the number. */
  lemma {:induction false} NatToStringRoundTrip(n: nat)
    ensures DigitsValue(NatToString(n)) == n
  {
    if n >= 10 {
      NatToStringRoundTrip(n / 10);
      var s := NatToString(n);
      assert s[..|s| - 1] == NatToString(n / 10);
    }
  }

  function Repeat(c: char, k: nat): (r: string)
    ensures |r| == k && forall i :: 0 <= i < k ==> r[i] == c
  {
    if k == 0 then [] else [c] + Repeat(c, k - 1)
  }

  /** `s.padStart(width, c)`: `c` repeated in front up to `width`
      characters; a string already that long is returned unchanged, never
      truncated. */
  function PadStart(s: string, width: nat, c: char): (r: string)
    ensures |r| == if |s| >= width then |s| else width
    ensures r[|r| - |s|..] == s
    ensures forall i :: 0 <= i < |r| - |s| ==> r[i] == c
  {
    if |s| >= width then s else Repeat(c, width - |s|) + s
  }

  /** Leading zeros do not change the value of a digit string. */
  lemma {:induction false} LeadingZerosValue(k: nat, s: string)
    requires AllDigits(s)
    ensures AllDigits(Repeat('0', k) + s)
    ensures DigitsValue(Repeat('0', k) + s) == DigitsValue(s)
    decreases |s|, k
  {
    var z := Repeat('0', k);
    if s == [] {
      assert z + s == z;
      if k > 0 {
        LeadingZerosValue(k - 1, s);
        assert Repeat('0', k - 1) + s == Repeat('0', k - 1);
        assert z[..|z| - 1] == Repeat('0', k - 1);
      }
    } else {
      LeadingZerosValue(k, s[..|s| - 1]);
      assert (z + s)[..|z + s| - 1] == z + s[..|s| - 1];
    }
  }

  /** A number below 100 takes exactly two characters. */
  lemma FieldWidth(n: nat)
    requires n < 100
    ensures |Field(n)| == 2
  {
  }

  /** The two-character field of one number below 100. */
  lemma TwoDigitField(n: nat)
    requires n < 100
    ensures |Field(n)| == 2
    ensures DigitsValue(Field(n)) == n
  {
    var s := NatToString(n);
    NatToStringRoundTrip(n);
    if |s| < 2 {
      LeadingZerosValue(2 - |s|, s);
    }
  }

  // ---------------------------------------------------------------------
  // formatDuration
  // ---------------------------------------------------------------------

  /** One number as a field of at least two digits. */
  function Field(n: nat): (r: string)
    ensures AllDigits(r) && |r| >= 2
  {
    PadStart(NatToString(n), 2, '0')
  }

  /** `${mins}:${secs}` for a two-character seconds field. */
  function Label(mins: string, secs: string): (r: string)
    requires |secs| == 2
    ensures |r| == |mins| + 3 && r[|r| - 3] == ':'
    ensures r[..|r| - 3] == mins && r[|r| - 2..] == secs
  {
    mins + ":" + secs
  }

  /** `formatDuration`: whole minutes, a colon, and the remaining seconds,
      each padded to two digits. What the label holds is stated by the
      lemmas below. */
  function FormatDuration(seconds: nat): string {
    FieldWidth(seconds % 60);
    Label(Field(seconds / 60), Field(seconds % 60))
  }

  /** Minutes field and seconds field of a formatted duration. */
  function MinutesField(r: string): string
    requires |r| >= 3
  {
    r[..|r| - 3]
  }

  function SecondsField(r: string): string
    requires |r| >= 2
  {
    r[|r| - 2..]
  }

  /** The label splits into the padded minute count and the padded second
      count. */
  lemma FormatDurationFields(seconds: nat)
    ensures |FormatDuration(seconds)| >= 5
    ensures MinutesField(FormatDuration(seconds)) == Field(seconds / 60)
    ensures SecondsField(FormatDuration(seconds)) == Field(seconds % 60)
  {
    TwoDigitField(seconds % 60);
  }

  lemma FormatDurationZero()
    ensures FormatDuration(0) == "00:00"
  {
    assert 0 / 60 == 0 && 0 % 60 == 0;
    assert NatToString(0) == [DigitChar(0)] == "0";
    assert Repeat('0', 1) == "0";
    assert Field(0) == Repeat('0', 1) + "0" == "00";
    assert FormatDuration(0) == Label("00", "00") == "00" + ":" + "00";
  }

  /** Below 100 minutes the label is exactly MM:SS. */
  lemma FormatDurationShape(seconds: nat)
    requires seconds < 6000
    ensures |FormatDuration(seconds)| == 5
    ensures FormatDuration(seconds)[2] == ':'
    ensures AllDigits(FormatDuration(seconds)[..2]) && AllDigits(FormatDuration(seconds)[3..])
  {
    TwoDigitField(seconds / 60);
    TwoDigitField(seconds % 60);
  }

  /** Reading the two fields back recovers the duration: minutes times 60
      plus seconds, with the seconds field below 60. */
  lemma FormatDurationReadBack(seconds: nat)
    ensures |FormatDuration(seconds)| >= 5
    ensures AllDigits(MinutesField(FormatDuration(seconds))) && AllDigits(SecondsField(FormatDuration(seconds)))
    ensures 0 <= DigitsValue(SecondsField(FormatDuration(seconds))) < 60
    ensures DigitsValue(MinutesField(FormatDuration(seconds))) * 60
            + DigitsValue(SecondsField(FormatDuration(seconds))) == seconds
  {
    FormatDurationFields(seconds);
    TwoDigitField(seconds % 60);
    var m := NatToString(seconds / 60);
    NatToStringRoundTrip(seconds / 60);
    if |m| < 2 {
      LeadingZerosValue(2 - |m|, m);
    }
    assert DigitsValue(MinutesField(FormatDuration(seconds))) == seconds / 60;
  }

  /** From 100 minutes on the minutes field is not cut to two digits: it
      holds every digit of the minute count. */
  lemma FormatDurationWide(seconds: nat)
    requires seconds >= 6000
    ensures |MinutesField(FormatDuration(seconds))| > 2
    ensures |FormatDuration(seconds)| > 5
    ensures MinutesField(FormatDuration(seconds)) == NatToString(seconds / 60)
  {
    var m := seconds / 60;
    assert m >= 100;
    assert |NatToString(m)| >= 3;
    assert Field(m) == NatToString(m);
    FormatDurationFields(seconds);
  }

  // ---------------------------------------------------------------------
  // Grouping by category
  // ---------------------------------------------------------------------

  /** One sidebar category; `name` is the source's `label` field (`label` is
      a Dafny keyword). */
  datatype Category = Category(id: string, name: string)

  /** The sidebar's categories, in display order. */
  const Categories: seq<Category> := [
    Category("piano", "Piano"),
    Category("chromatic", "Chromatic Percussion"),
    Category("organ", "Organ"),
    Category("guitar", "Guitar"),
    Category("bass", "Bass"),
    Category("strings", "Strings"),
    Category("ensemble", "Ensemble"),
    Category("brass", "Brass"),
    Category("reed", "Reed"),
    Category("pipe", "Pipe"),
    Category("synth-lead", "Synth Lead"),
    Category("synth-pad", "Synth Pad"),
    Category("synth-fx", "Synth FX"),
    Category("ethnic", "Ethnic"),
    Category("percussive", "Percussive"),
    Category("sound-fx", "Sound FX")
  ]

  datatype CategoryGroup = CategoryGroup(id: string, name: string, instruments: seq<InstrumentPreset>)

  /** `instruments.filter(i => i.category === id)`. */
  function InstrumentsInCategory(instruments: seq<InstrumentPreset>, id: string): (r: seq<InstrumentPreset>)
    ensures |r| <= |instruments|
    ensures forall i :: 0 <= i < |r| ==> r[i].category == id
  {
    if instruments == [] then []
    else
      (if instruments[0].category == id then [instruments[0]] else [])
      + InstrumentsInCategory(instruments[1..], id)
  }

  /** `categories.map(cat => ({...cat, instruments: ...}))`. */
  function InstrumentsByCategory(categories: seq<Category>, instruments: seq<InstrumentPreset>)
    : (groups: seq<CategoryGroup>)
    ensures |groups| == |categories|
    ensures forall k :: 0 <= k < |groups| ==>
              groups[k].id == categories[k].id && groups[k].name == categories[k].name
              && groups[k].instruments == InstrumentsInCategory(instruments, categories[k].id)
  {
    seq(|categories|, k requires 0 <= k < |categories| =>
      CategoryGroup(categories[k].id, categories[k].name, InstrumentsInCategory(instruments, categories[k].id)))
  }

  /** A group holds exactly the instruments of its category. */
  lemma {:induction false} InstrumentsInCategoryMembership(instruments: seq<InstrumentPreset>, id: string,
                                                            p: InstrumentPreset)
    ensures p in InstrumentsInCategory(instruments, id) <==> p in instruments && p.category == id
  {
    if instruments != [] {
      InstrumentsInCategoryMembership(instruments[1..], id, p);
      assert instruments == [instruments[0]] + instruments[1..];
    }
  }

  /** Filtering distributes over concatenation, so the group keeps the
      relative order of the instrument list. */
  lemma {:induction false} InstrumentsInCategoryAppend(a: seq<InstrumentPreset>, b: seq<InstrumentPreset>,
                                                        id: string)
    ensures InstrumentsInCategory(a + b, id) == InstrumentsInCategory(a, id) + InstrumentsInCategory(b, id)
  {
    if a == [] {
      assert a + b == b;
    } else {
      assert (a + b)[1..] == a[1..] + b;
      InstrumentsInCategoryAppend(a[1..], b, id);
    }
  }

  /** A category no instrument belongs to gets an empty group, and only such
      a category does. */
  lemma {:induction false} EmptyGroup(instruments: seq<InstrumentPreset>, id: string)
    ensures InstrumentsInCategory(instruments, id) == []
        <==> forall i :: 0 <= i < |instruments| ==> instruments[i].category != id
  {
    if instruments != [] {
      EmptyGroup(instruments[1..], id);
      if InstrumentsInCategory(instruments, id) == [] {
        forall i | 0 <= i < |instruments|
          ensures instruments[i].category != id
        {
          if i > 0 {
            assert instruments[i] == instruments[1..][i - 1];
          }
        }
      }
    }
  }

  /** The category ids are distinct, so an instrument is listed in at most
      one group of the sidebar. */
  lemma InstrumentInAtMostOneGroup(instruments: seq<InstrumentPreset>, p: InstrumentPreset, j: nat, k: nat)
    requires j < |Categories| && k < |Categories|
    requires p in InstrumentsByCategory(Categories, instruments)[j].instruments
    requires p in InstrumentsByCategory(Categories, instruments)[k].instruments
    ensures j == k
  {
    InstrumentsInCategoryMembership(instruments, Categories[j].id, p);
    InstrumentsInCategoryMembership(instruments, Categories[k].id, p);
  }

  /** The grouping is a partition of the listed categories: an instrument of
      the list whose category is the k-th one appears in group k and in no
      other group. */
  lemma InstrumentInItsGroup(instruments: seq<InstrumentPreset>, p: InstrumentPreset, k: nat)
    requires p in instruments && k < |Categories| && p.category == Categories[k].id
    ensures p in InstrumentsByCategory(Categories, instruments)[k].instruments
    ensures forall j :: 0 <= j < |Categories| && j != k ==> p !in InstrumentsByCategory(Categories, instruments)[j].instruments
  {
    InstrumentsInCategoryMembership(instruments, Categories[k].id, p);
    forall j | 0 <= j < |Categories| && j != k
      ensures p !in InstrumentsByCategory(Categories, instruments)[j].instruments
    {
      if p in InstrumentsByCategory(Categories, instruments)[j].instruments {
        InstrumentInAtMostOneGroup(instruments, p, j, k);
      }
    }
  }
}
