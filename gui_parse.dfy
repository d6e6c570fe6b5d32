/**
 * The text handling of the reconstruction tab of the napari widget
 * (`_populate_config_from_app` and `push_note` in the widget's main module).
 *
 * The positions and timepoints fields are parsed into the list values that
 * `_gen_coord_set` later scans, so the parser produces `CoordSet.Entry` lists
 * directly; the lemmas at the end say which selections those lists denote.
 * The field is refilled with `str(positions)` when a configuration is loaded,
 * and that text does not always parse back to the same list.
 */
module GuiParse {
  import opened Common
  import opened PyStrings
  import opened CoordSet

  /** What parsing one positions or timepoints field does to the configuration. */
  datatype FieldParse =
    | Assigned(entries: seq<Entry>)  // the attribute is set to this list
    | Flagged                        // bracketed text with the wrong part count: attribute not set
    | Raised(error: Error)           // `int()` refused a part

  /** What the same parse does to the red highlighting of the field and of the Processing tab. */
  datatype Highlight = Unchanged | Red | Cleared

  /** The three spellings of "every index". */
  predicate IsAllText(t: string) {
    t == "all" || t == "['all']" || t == "[all]"
  }

  predicate Bracketed(t: string) {
    StartsWith(t, "[") && EndsWith(t, "]")
  }

  /** `t[1:-1]`, which is empty for text shorter than two characters. */
  function Inner(t: string): (r: string)
    ensures |t| >= 2 ==> r == t[1..|t| - 1]
  {
    if |t| >= 2 then t[1..|t| - 1] else ""
  }

  /** `list(map(int, parts))`: the first part `int()` refuses raises ValueError. */
  function ParseInts(parts: seq<string>): (r: Result<seq<int>>)
    ensures r.Ok? <==> forall i :: 0 <= i < |parts| ==> ParseInt(parts[i]).Ok?
    ensures r.Ok? ==> |r.value| == |parts|
    ensures r.Ok? ==> forall i :: 0 <= i < |parts| ==> ParseInt(parts[i]) == Ok(r.value[i])
    ensures r.Err? ==> r.error == ValueError
    decreases |parts|
  {
    if parts == [] then Ok([])
    else
      match ParseInt(parts[0])
      case Err(e) => Err(e)
      case Ok(n) =>
        match ParseInts(parts[1..])
        case Err(e) => Err(e)
        case Ok(ns) => Ok([n] + ns)
  }

  /** A list of ints as configuration entries. */
  function Ints(ns: seq<int>): (es: seq<Entry>)
    ensures |es| == |ns| && forall i :: 0 <= i < |ns| ==> es[i] == Int(ns[i])
  {
    seq(|ns|, i requires 0 <= i < |ns| => Int(ns[i]))
  }

  /** The positions (or timepoints) field, as parsed by `_populate_config_from_app`. */
  function ParseSelection(text: string): (r: FieldParse)
    ensures r.Raised? ==> r.error == ValueError
  {
    var t := RemoveSpaces(text);
    if IsAllText(t) then Assigned([Str("all")])
    else if Bracketed(t) then
      var vals := Split(Inner(t), ',');
      if |vals| != 2 then Flagged
      else
        match (ParseInt(vals[0]), ParseInt(vals[1]))
        case (Ok(a), Ok(b)) => Assigned([Tuple([a, b])])
        case _ => Raised(ValueError)
    else
      match ParseInts(Split(t, ','))
      case Ok(ns) => Assigned(Ints(ns))
      case Err(e) => Raised(e)
  }

  /**
   * The highlighting the same field text causes: bracketed text with a part
   * count other than two turns field and tab red, two parts clear both (before
   * `int()` runs), anything else leaves them as they were.
   */
  function HighlightOf(text: string): Highlight {
    var t := RemoveSpaces(text);
    if IsAllText(t) || !Bracketed(t) then Unchanged
    else if |Split(Inner(t), ',')| != 2 then Red
    else Cleared
  }

  function Highlighted(before: bool, h: Highlight): bool {
    match h
    case Unchanged => before
    case Red => true
    case Cleared => false
  }

  /** `field_text.split(',')` with the spaces of every item removed. */
  function OutputChannels(text: string): (r: seq<string>)
    ensures |r| == |Split(text, ',')|
    ensures forall i :: 0 <= i < |r| ==> r[i] == RemoveSpaces(Split(text, ',')[i])
  {
    var parts := Split(text, ',');
    seq(|parts|, i requires 0 <= i < |parts| => RemoveSpaces(parts[i]))
  }

  /** The notes rule of `push_note`: a new note replaces an empty or equal one, otherwise it is appended. */
  function MergeNote(stored: Option<string>, note: string): (r: string)
  {
    if stored == None || stored == Some("") || stored == Some(note) then note
    else stored.value + ", " + note
  }

  /**
   * `push_note`: without a calibration metadata file it raises ValueError;
   * otherwise the file's "Notes" entry (KeyError if missing) is merged with
   * the note, and concatenating a note to anything but a string or None raises
   * TypeError.  The result is the new "Notes" value written back.
   */
  function PushNote(metaFile: Option<string>, doc: Yaml, note: string): (r: Result<Yaml>)
    ensures metaFile == None || metaFile == Some("") ==> r == Err(ValueError)
    ensures r.Ok? <==>
      metaFile != None && metaFile != Some("") && PyGet(doc, "Notes").Ok? &&
      (PyGet(doc, "Notes").value.YNone? || PyGet(doc, "Notes").value.YStr?)
    ensures r.Err? ==> r.error in {ValueError, KeyError, TypeError}
  {
    if metaFile == None || metaFile == Some("") then Err(ValueError)
    else
      match PyGet(doc, "Notes")
      case Err(e) => Err(e)
      case Ok(stored) =>
        match NoteText(stored)
        case Some(text) => Ok(YStr(MergeNote(text, note)))
        case None => Err(TypeError)
  }

  /** A stored note as a string, None for a JSON null; no value for any other type. */
  function NoteText(stored: Yaml): Option<Option<string>> {
    match stored
    case YNone => Some(None)
    case YStr(s) => Some(Some(s))
    case _ => None
  }

  // ---------------------------------------------------------------------------
  // Writing the results into the configuration object

  /**
   * The attributes `_populate_config_from_app` sets from the two selection
   * fields, and the highlighting it changes on the way.
   */
  class SelectionFields {
    var positions: seq<Entry>
    var timepoints: seq<Entry>
    var positionsRed: bool
    var timepointsRed: bool
    var processingTabRed: bool

    constructor ()
      ensures positions == [Str("all")] && timepoints == [Str("all")]
      ensures !positionsRed && !timepointsRed && !processingTabRed
    {
      positions := [Str("all")];
      timepoints := [Str("all")];
      positionsRed := false;
      timepointsRed := false;
      processingTabRed := false;
    }

    /**
     * `_populate_config_from_app` on the two selection fields.  It starts from
     * a fresh configuration object, whose lists are `defaultPositions` and
     * `defaultTimepoints`, and parses the positions field, then the timepoints
     * field.  An `int()` failure in the positions field raises before the
     * timepoints field is read; a flagged or unread field keeps the fresh
     * default, so only the highlighting carries over from earlier calls.
     */
    method Populate(positionsText: string, timepointsText: string,
                    defaultPositions: seq<Entry>, defaultTimepoints: seq<Entry>) returns (o: Outcome)
      modifies this
      ensures var p := ParseSelection(positionsText);
        positions == (if p.Assigned? then p.entries else defaultPositions) &&
        positionsRed == Highlighted(old(positionsRed), HighlightOf(positionsText))
      ensures var p := ParseSelection(positionsText);
        var q := ParseSelection(timepointsText);
        if p.Raised? then
          o == Fail(p.error) && timepoints == defaultTimepoints && timepointsRed == old(timepointsRed) &&
          processingTabRed == Highlighted(old(processingTabRed), HighlightOf(positionsText))
        else
          o == (if q.Raised? then Fail(q.error) else Pass) &&
          timepoints == (if q.Assigned? then q.entries else defaultTimepoints) &&
          timepointsRed == Highlighted(old(timepointsRed), HighlightOf(timepointsText)) &&
          processingTabRed ==
            Highlighted(Highlighted(old(processingTabRed), HighlightOf(positionsText)), HighlightOf(timepointsText))
    {
      positions := defaultPositions;
      timepoints := defaultTimepoints;
      var p := ParseSelection(positionsText);
      var h := HighlightOf(positionsText);
      positionsRed := Highlighted(positionsRed, h);
      processingTabRed := Highlighted(processingTabRed, h);
      if p.Assigned? {
        positions := p.entries;
      } else if p.Raised? {
        return Fail(p.error);
      }
      var q := ParseSelection(timepointsText);
      var g := HighlightOf(timepointsText);
      timepointsRed := Highlighted(timepointsRed, g);
      processingTabRed := Highlighted(processingTabRed, g);
      if q.Assigned? {
        timepoints := q.entries;
      } else if q.Raised? {
        return Fail(q.error);
      }
      o := Pass;
    }
  }

  // ---------------------------------------------------------------------------
  // What is written back into the field: `str(list)`

  /**
   * `str(e)` for the entries the parser produces; the lists with non-int items
   * and the other values it never produces have a stand-in.
   */
  function ShowEntry(e: Entry): string {
    match e
    case Str(s) => "'" + s + "'"
    case Int(n) => ShowInt(n)
    case Tuple(items) =>
      if |items| == 1 then "(" + ShowInt(items[0]) + ",)"
      else "(" + Join(ShowInts(items), ", ") + ")"
    case IntList(items) => "[" + Join(ShowInts(items), ", ") + "]"
    case MixedList(_) => "[...]"
    case Other => "None"
  }

  function ShowInts(ns: seq<int>): (r: seq<string>)
    ensures |r| == |ns| && forall i :: 0 <= i < |ns| ==> r[i] == ShowInt(ns[i])
  {
    seq(|ns|, i requires 0 <= i < |ns| => ShowInt(ns[i]))
  }

  /** `str(entries)`, the text `_populate_from_config` puts back into the field. */
  function ShowSelection(es: seq<Entry>): string {
    "[" + Join(ShowEntries(es), ", ") + "]"
  }

  function ShowEntries(es: seq<Entry>): (r: seq<string>)
    ensures |r| == |es| && forall i :: 0 <= i < |es| ==> r[i] == ShowEntry(es[i])
  {
    seq(|es|, i requires 0 <= i < |es| => ShowEntry(es[i]))
  }

  // ---------------------------------------------------------------------------
  // Properties

  /** Spaces anywhere in the field make no difference. */
  lemma ParseIgnoresSpaces(text: string)
    ensures ParseSelection(RemoveSpaces(text)) == ParseSelection(text)
    ensures HighlightOf(RemoveSpaces(text)) == HighlightOf(text)
  {
    RemoveSpacesNoop(RemoveSpaces(text));
  }

  /** The field selects everything exactly when it spells `all`, even in brackets. */
  lemma AllIff(text: string)
    ensures ParseSelection(text) == Assigned([Str("all")]) <==> IsAllText(RemoveSpaces(text))
  {
    var t := RemoveSpaces(text);
    if !IsAllText(t) && !Bracketed(t) {
      match ParseInts(Split(t, ','))
      case Ok(ns) =>
        if ns != [] {
          assert Ints(ns)[0] == Int(ns[0]);
        }
      case Err(_) =>
    }
  }

  /** `[all]` is bracketed text of one part, yet it selects everything instead of being flagged. */
  lemma AllBeforeBrackets()
    ensures Bracketed("[all]") && |Split(Inner("[all]"), ',')| == 1
    ensures ParseSelection("[all]") == Assigned([Str("all")])
  {
    RemoveSpacesNoop("[all]");
    AllBracketed();
  }

  lemma AllBracketed()
    ensures Bracketed("[all]") && |Split(Inner("[all]"), ',')| == 1
  {
    var t := "[all]";
    assert t[..1] == "[" && t[|t| - 1..] == "]";
    assert Inner(t) == "all";
    SplitNoSeparator("all", ',');
  }

  /** Texts of the all kind are not bracketed pairs. */
  lemma AllTextOnePart(t: string)
    requires IsAllText(t)
    ensures |Split(Inner(t), ',')| == 1 || !Bracketed(t)
  {
    if t == "['all']" {
      assert Inner(t) == "'all'";
      SplitNoSeparator("'all'", ',');
    } else if t == "[all]" {
      assert Inner(t) == "all";
      SplitNoSeparator("all", ',');
    }
  }

  /** Bracketed text with two integer parts, and only that, becomes the single range `(a, b)`. */
  lemma RangeIff(text: string, a: int, b: int)
    ensures var t := RemoveSpaces(text);
      var vals := Split(Inner(t), ',');
      ParseSelection(text) == Assigned([Tuple([a, b])]) <==>
        Bracketed(t) && |vals| == 2 && ParseInt(vals[0]) == Ok(a) && ParseInt(vals[1]) == Ok(b)
  {
    var t := RemoveSpaces(text);
    if IsAllText(t) {
      AllTextOnePart(t);
    } else if !Bracketed(t) {
      match ParseInts(Split(t, ','))
      case Ok(ns) =>
        if ns != [] {
          assert Ints(ns)[0] == Int(ns[0]);
        }
      case Err(_) =>
    }
  }

  /** The field is flagged and its attribute left unassigned exactly for bracketed text of another part count. */
  lemma FlaggedIff(text: string)
    ensures var t := RemoveSpaces(text);
      ParseSelection(text) == Flagged <==>
        !IsAllText(t) && Bracketed(t) && |Split(Inner(t), ',')| != 2
    ensures ParseSelection(text) == Flagged <==> HighlightOf(text) == Red
  {
  }

  /** Unbracketed text becomes the list of its comma-separated ints, in order, or raises ValueError. */
  lemma ListIff(text: string)
    ensures var t := RemoveSpaces(text);
      !IsAllText(t) && !Bracketed(t) ==>
        match ParseInts(Split(t, ','))
        case Ok(ns) => ParseSelection(text) == Assigned(Ints(ns))
        case Err(_) => ParseSelection(text) == Raised(ValueError)
  {
  }

  /** An empty (or blank) field is not "all": `int('')` raises ValueError. */
  lemma EmptyFieldRaises(text: string)
    requires RemoveSpaces(text) == ""
    ensures ParseSelection(text) == Raised(ValueError)
  {
    assert Split("", ',') == [""];
    assert ParseInt("").Err?;
  }

  /** A space-free part of a shown int list is the int itself. */
  lemma ShowIntPlain(n: int)
    ensures ' ' !in ShowInt(n) && ',' !in ShowInt(n) && '[' != ShowInt(n)[0] && '\'' != ShowInt(n)[0]
    ensures ShowInt(n)[0] != 'a'
  {
    var s := ShowInt(n);
    assert forall i :: 0 <= i < |s| ==> s[i] != ' ' && s[i] != ',';
  }

  /** Writing `['all']` back and parsing it again gives `['all']`. */
  lemma ReparseAll()
    ensures ShowSelection([Str("all")]) == "['all']"
    ensures ParseSelection(ShowSelection([Str("all")])) == Assigned([Str("all")])
  {
    var t := "['all']";
    assert ShowEntry(Str("all")) == "'all'";
    assert ShowEntries([Str("all")]) == ["'all'"];
    assert ShowSelection([Str("all")]) == t;
    assert ' ' !in t;
    RemoveSpacesNoop(t);
    assert IsAllText(RemoveSpaces(t));
  }

  /**
   * Writing a list of ints back and parsing it again does not give the list:
   * two ints come back as the range between them, any other count is flagged.
   */
  lemma ReparseInts(ns: seq<int>)
    ensures |ns| == 2 ==> ParseSelection(ShowSelection(Ints(ns))) == Assigned([Tuple(ns)])
    ensures |ns| != 2 ==> ParseSelection(ShowSelection(Ints(ns))) == Flagged
  {
    var text := ShowSelection(Ints(ns));
    var shown := ShowInts(ns);
    var body := Join(shown, ",");
    ShownIntsText(ns);
    if ns == [] {
      assert body == "";
      NotAllText(body);
      ParseBracketed(text, body);
    } else {
      ShowIntPlain(ns[0]);
      JoinStart(shown, ",");
      NotAllText(body);
      ParseBracketed(text, body);
      forall i | 0 <= i < |shown|
        ensures ',' !in shown[i]
      {
        ShowIntPlain(ns[i]);
      }
      SplitJoin(shown, ',');
      if |ns| == 2 {
        ParseShowInt(ns[0]);
        ParseShowInt(ns[1]);
        assert [ns[0], ns[1]] == ns;
      }
    }
  }

  /** The shown int list, without its spaces. */
  lemma ShownIntsText(ns: seq<int>)
    ensures RemoveSpaces(ShowSelection(Ints(ns))) == "[" + Join(ShowInts(ns), ",") + "]"
  {
    var shown := ShowInts(ns);
    assert ShowEntries(Ints(ns)) == shown;
    forall i | 0 <= i < |shown|
      ensures ' ' !in shown[i]
    {
      ShowIntPlain(ns[i]);
    }
    RemoveSpacesJoin(shown);
    RemoveSpacesConcat("[" + Join(shown, ", "), "]");
    RemoveSpacesConcat("[", Join(shown, ", "));
  }

  /** A join starts with its first piece. */
  lemma JoinStart(parts: seq<string>, sep: string)
    requires |parts| >= 1 && |parts[0]| >= 1
    ensures |Join(parts, sep)| >= 1 && Join(parts, sep)[0] == parts[0][0]
  {
  }

  /** Bracketed text whose body is empty or starts with neither `a` nor a quote is not an `all` spelling. */
  lemma NotAllText(body: string)
    requires body == "" || (body[0] != 'a' && body[0] != '\'')
    ensures !IsAllText("[" + body + "]")
  {
    var t := "[" + body + "]";
    assert t[0] == '[';
    if body == "" {
      assert |t| == 2;
    } else {
      assert t[1] == body[0];
    }
  }

  /** How text that reads `[body]` once its spaces are gone is parsed. */
  lemma ParseBracketed(text: string, body: string)
    requires RemoveSpaces(text) == "[" + body + "]"
    requires !IsAllText("[" + body + "]")
    ensures var vals := Split(body, ',');
      ParseSelection(text) ==
        if |vals| != 2 then Flagged
        else if ParseInt(vals[0]).Ok? && ParseInt(vals[1]).Ok? then
          Assigned([Tuple([ParseInt(vals[0]).value, ParseInt(vals[1]).value])])
        else Raised(ValueError)
  {
    var t := "[" + body + "]";
    assert t[..1] == "[";
    assert t[|t| - 1..] == "]";
    assert Bracketed(t);
    assert t[1..|t| - 1] == body;
  }

  /** Writing a range back and parsing it again raises ValueError: `int('(a')` fails. */
  lemma ReparseRange(a: int, b: int)
    ensures ParseSelection(ShowSelection([Tuple([a, b])])) == Raised(ValueError)
  {
    var sa := ShowInt(a);
    var sb := ShowInt(b);
    var text := ShowSelection([Tuple([a, b])]);
    var body := ("(" + sa) + [','] + (sb + ")");
    ShownRangeText(a, b);
    NotAllText(body);
    ParseBracketed(text, body);
    ShowIntPlain(b);
    SplitAtFirst("(" + sa, ',', sb + ")");
    SplitNoSeparator(sb + ")", ',');
    assert ParseInt("(" + sa).Err?;
  }

  /** The shown range, without its spaces. */
  lemma ShownRangeText(a: int, b: int)
    ensures RemoveSpaces(ShowSelection([Tuple([a, b])])) == "[" + (("(" + ShowInt(a)) + [','] + (ShowInt(b) + ")")) + "]"
  {
    ShowIntPlain(a);
    ShowIntPlain(b);
    ShownRange(a, b);
    RemoveSpacesPair(ShowInt(a), ShowInt(b));
  }

  /** `str([(a, b)])`. */
  lemma ShownRange(a: int, b: int)
    ensures ShowSelection([Tuple([a, b])]) == ("[(" + ShowInt(a)) + ", " + (ShowInt(b) + ")]")
  {
    var sa := ShowInt(a);
    var sb := ShowInt(b);
    assert ShowInts([a, b]) == [sa, sb];
    JoinPair(sa, sb, ", ");
    assert ShowEntry(Tuple([a, b])) == "(" + (sa + ", " + sb) + ")";
    ShowSingle(Tuple([a, b]));
    BracketRange(sa, sb);
  }

  lemma JoinPair(x: string, y: string, sep: string)
    ensures Join([x, y], sep) == x + sep + y
  {
    assert [x, y][1..] == [y];
  }

  /** `str([e])`. */
  lemma ShowSingle(e: Entry)
    ensures ShowSelection([e]) == "[" + ShowEntry(e) + "]"
  {
    assert ShowEntries([e]) == [ShowEntry(e)];
  }

  lemma BracketRange(sa: string, sb: string)
    ensures "[" + ("(" + (sa + ", " + sb) + ")") + "]" == ("[(" + sa) + ", " + (sb + ")]")
  {
  }

  lemma RemoveSpacesPair(sa: string, sb: string)
    requires ' ' !in sa && ' ' !in sb
    ensures RemoveSpaces(("[(" + sa) + ", " + (sb + ")]")) == "[" + (("(" + sa) + [','] + (sb + ")")) + "]"
  {
    SpaceFreeConcat("[(", sa);
    SpaceFreeConcat(sb, ")]");
    RemoveCommaSpace("[(" + sa, sb + ")]");
    Reassociate(sa, sb);
  }

  /** Removing the spaces of `x + ", " + z` for space-free `x` and `z`. */
  lemma RemoveCommaSpace(x: string, z: string)
    requires RemoveSpaces(x) == x && RemoveSpaces(z) == z
    ensures RemoveSpaces(x + ", " + z) == x + "," + z
  {
    RemoveSpacesConcat(x + ", ", z);
    RemoveSpacesConcat(x, ", ");
    assert RemoveSpaces(", ") == ",";
  }

  lemma Reassociate(sa: string, sb: string)
    ensures ("[(" + sa) + "," + (sb + ")]") == "[" + (("(" + sa) + [','] + (sb + ")")) + "]"
  {
  }

  /** Two space-free strings stay as they are, joined. */
  lemma SpaceFreeConcat(x: string, y: string)
    requires ' ' !in x && ' ' !in y
    ensures RemoveSpaces(x + y) == x + y
  {
    assert ' ' !in x + y;
    RemoveSpacesNoop(x + y);
  }

  /** Reparsing what is written back is the identity only for `['all']`. */
  lemma ReparseIdentityOnlyAll(text: string)
    requires ParseSelection(text).Assigned?
    ensures var es := ParseSelection(text).entries;
      ParseSelection(ShowSelection(es)) == Assigned(es) <==> es == [Str("all")]
  {
    var t := RemoveSpaces(text);
    var es := ParseSelection(text).entries;
    if IsAllText(t) {
      ReparseAll();
    } else if Bracketed(t) {
      var vals := Split(Inner(t), ',');
      ReparseRange(ParseInt(vals[0]).value, ParseInt(vals[1]).value);
    } else {
      var ns := ParseInts(Split(t, ',')).value;
      ReparseInts(ns);
      if |ns| == 2 {
        assert Assigned([Tuple(ns)]) != Assigned(Ints(ns));
      }
      if ns != [] {
        assert Ints(ns)[0] == Int(ns[0]);
      }
    }
  }

  /**
   * Every list the parser assigns is one `_gen_coord_set` accepts: `all` is
   * every index below the extent, `[a, b]` the range `a <= i < b` (so `[1, 2]`
   * selects index 1 alone), and a plain list the indices given, in order.
   */
  lemma ParsedSelectionScans(axis: Axis, text: string, extent: int)
    requires ParseSelection(text).Assigned?
    ensures var es := ParseSelection(text).entries;
      var t := RemoveSpaces(text);
      var vals := Split(Inner(t), ',');
      Visits(axis, es, extent) ==
        if IsAllText(t) then Ok(Span(0, extent))
        else if Bracketed(t) then Ok(Span(ParseInt(vals[0]).value, ParseInt(vals[1]).value))
        else Ok(ParseInts(Split(t, ',')).value)
  {
    var t := RemoveSpaces(text);
    if IsAllText(t) {
    } else if Bracketed(t) {
      var vals := Split(Inner(t), ',');
      var span := Span(ParseInt(vals[0]).value, ParseInt(vals[1]).value);
      assert ParseSelection(text).entries == [Tuple([ParseInt(vals[0]).value, ParseInt(vals[1]).value])];
      assert span + [] == span;
    } else {
      IntsVisits(axis, ParseInts(Split(t, ',')).value, extent);
    }
  }

  lemma {:induction false} IntsVisits(axis: Axis, ns: seq<int>, extent: int)
    ensures Visits(axis, Ints(ns), extent) == Ok(ns)
    decreases |ns|
  {
    if ns != [] {
      IntsVisits(axis, ns[1..], extent);
      assert Ints(ns)[1..] == Ints(ns[1..]);
      assert [ns[0]] + ns[1..] == ns;
    }
  }

  /** Output channels keep their order and, joined again, give the field without spaces. */
  lemma OutputChannelsRoundTrip(text: string)
    ensures forall i :: 0 <= i < |OutputChannels(text)| ==>
      ' ' !in OutputChannels(text)[i] && ',' !in OutputChannels(text)[i]
    ensures Join(OutputChannels(text), ",") == RemoveSpaces(text)
  {
    var parts := Split(text, ',');
    JoinSplit(text, ',');
    JoinRemoveSpaces(parts);
  }

  lemma {:induction false} JoinRemoveSpaces(parts: seq<string>)
    ensures Join(seq(|parts|, i requires 0 <= i < |parts| => RemoveSpaces(parts[i])), ",") ==
      RemoveSpaces(Join(parts, [',']))
    decreases |parts|
  {
    var cleaned := seq(|parts|, i requires 0 <= i < |parts| => RemoveSpaces(parts[i]));
    if |parts| > 1 {
      JoinRemoveSpaces(parts[1..]);
      assert cleaned[1..] == seq(|parts[1..]|, i requires 0 <= i < |parts[1..]| => RemoveSpaces(parts[1..][i]));
      RemoveSpacesConcat(parts[0] + [','], Join(parts[1..], [',']));
      RemoveSpacesConcat(parts[0], [',']);
      assert RemoveSpaces([',']) == ",";
    }
  }

  /** The merged note is the new note exactly when the stored one was empty, missing or equal. */
  lemma MergeNoteIff(stored: Option<string>, note: string)
    ensures EndsWith(MergeNote(stored, note), note)
    ensures MergeNote(stored, note) == note <==> stored == None || stored == Some("") || stored == Some(note)
    ensures stored.Some? && stored.value != "" && stored.value != note ==>
      StartsWith(MergeNote(stored, note), stored.value)
  {
    var r := MergeNote(stored, note);
    if !(stored == None || stored == Some("") || stored == Some(note)) {
      assert r == stored.value + ", " + note;
      assert r[|r| - |note|..] == note;
      assert r[..|stored.value|] == stored.value;
    }
  }

  /** A pushed note is appended to a different, non-empty stored note, never written over it. */
  lemma PushNoteAppends(metaFile: string, doc: seq<(string, Yaml)>, stored: string, note: string)
    requires metaFile != ""
    requires Lookup(doc, "Notes") == Some(YStr(stored))
    ensures var r := PushNote(Some(metaFile), YMap(doc), note);
      r.Ok? && r.value.YStr? && EndsWith(r.value.s, note) &&
      (stored != "" && stored != note ==> r.value == YStr(stored + ", " + note))
  {
    MergeNoteIff(Some(stored), note);
  }

  /** Pushing the same note twice onto another note stores it twice. */
  lemma PushTwiceRepeats(stored: string, note: string)
    requires stored != "" && stored != note
    ensures MergeNote(Some(MergeNote(Some(stored), note)), note) == stored + ", " + note + ", " + note
  {
    assert |stored + ", " + note| > |note|;
  }
}
