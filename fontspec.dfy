/**
 * The font specification the editor sends with a `Gui Font` notification:
 * `family[:attr]*`, where `_` in the family stands for a space and each
 * attribute is recognised by its first letter: `h<n>` sets the point size,
 * `b` bold weight, `i` italic style; any other attribute is ignored.
 * Attributes are applied left to right, so a later one overrides an
 * earlier one.  (main.py, `Terminal._notify_font`.)
 */
module FontSpec {
  import opened Wrappers
  import opened Text

  /** The parts of a Pango font description the parser sets. */
  datatype FontDescriptor = FontDescriptor(family: string, size: Option<nat>, bold: bool, italic: bool)

  /**
   * What makes the parser raise: an empty attribute segment (`attr[0]`
   * on an empty string), or an `h` attribute whose text is not a size.
   */
  datatype FontError = EmptyAttribute | InvalidSize(text: string)

  /** The descriptor built from the family alone: no size, normal weight and style. */
  function Initial(family: string): (d: FontDescriptor)
    ensures d.size == None && !d.bold && !d.italic
    ensures |d.family| == |family| && '_' !in d.family
  {
    FontDescriptor(UnderscoresToSpaces(family), None, false, false)
  }

  /** Whether the parser raises on this attribute. */
  predicate BadAttribute(attr: string)
  {
    attr == [] || (attr[0] == 'h' && !IsDigits(attr[1..]))
  }

  predicate StartsWith(attr: string, letter: char)
  {
    attr != [] && attr[0] == letter
  }

  /**
   * One step of the attribute loop: it raises exactly on a bad attribute,
   * keeps the family, and sets only what the attribute's letter names.
   */
  function ApplyAttribute(d: FontDescriptor, attr: string): (r: Result<FontDescriptor, FontError>)
    ensures r.Err? <==> BadAttribute(attr)
    ensures r.Ok? ==> r.value.family == d.family
    ensures r.Ok? ==> (r.value.bold <==> d.bold || StartsWith(attr, 'b'))
    ensures r.Ok? ==> (r.value.italic <==> d.italic || StartsWith(attr, 'i'))
    ensures r.Ok? ==> r.value.size == if StartsWith(attr, 'h') then ParseNat(attr[1..]) else d.size
  {
    if attr == [] then Err(EmptyAttribute)
    else if attr[0] == 'h' then
      match ParseNat(attr[1..])
      case Some(n) => Ok(d.(size := Some(n)))
      case None => Err(InvalidSize(attr[1..]))
    else if attr[0] == 'b' then Ok(d.(bold := true))
    else if attr[0] == 'i' then Ok(d.(italic := true))
    else Ok(d)
  }

  /**
   * The attribute loop as a left fold: apply `attrs` in order, stopping at
   * the first error.  No attribute changes the family.
   */
  function ApplyAttributes(d: FontDescriptor, attrs: seq<string>): (r: Result<FontDescriptor, FontError>)
    ensures r.Ok? ==> r.value.family == d.family
    decreases |attrs|
  {
    if attrs == [] then Ok(d)
    else
      match ApplyAttribute(d, attrs[0])
      case Err(e) => Err(e)
      case Ok(d') => ApplyAttributes(d', attrs[1..])
  }

  /** The specification of the whole parser: split on `:`, decode the family, fold the attributes. */
  function Parse(fontStr: string): (r: Result<FontDescriptor, FontError>)
    ensures r.Ok? ==> r.value.family == UnderscoresToSpaces(Split(fontStr, ':')[0])
  {
    var segments := Split(fontStr, ':');
    ApplyAttributes(Initial(segments[0]), segments[1..])
  }

  /**
   * The parser as the source writes it: a loop that updates the descriptor
   * one attribute at a time.  It computes exactly `Parse`.
   */
  method DecodeFont(fontStr: string) returns (r: Result<FontDescriptor, FontError>)
    ensures r == Parse(fontStr)
  {
    var segments := Split(fontStr, ':');
    var attrs := segments[1..];
    var desc := Initial(segments[0]);
    for i := 0 to |attrs|
      invariant ApplyAttributes(desc, attrs[i..]) == Parse(fontStr)
    {
      assert attrs[i..][0] == attrs[i] && attrs[i..][1..] == attrs[i + 1..];
      var attr := attrs[i];
      if attr == [] {
        return Err(EmptyAttribute);
      }
      var attrType := attr[0];
      if attrType == 'h' {
        var size := ParseNat(attr[1..]);
        if size.None? {
          return Err(InvalidSize(attr[1..]));
        }
        desc := desc.(size := size);
      } else if attrType == 'b' {
        desc := desc.(bold := true);
      } else if attrType == 'i' {
        desc := desc.(italic := true);
      }
    }
    assert attrs[|attrs|..] == [];
    r := Ok(desc);
  }

  /** Folding over `attrs + [a]` is folding over `attrs` and then applying `a`. */
  lemma {:induction false} ApplyAttributesSnoc(d: FontDescriptor, attrs: seq<string>, a: string)
    ensures ApplyAttributes(d, attrs + [a]) ==
      match ApplyAttributes(d, attrs)
      case Err(e) => Err(e)
      case Ok(d') => ApplyAttribute(d', a)
    decreases |attrs|
  {
    if attrs == [] {
      assert [] + [a] == [a];
    } else {
      assert (attrs + [a])[0] == attrs[0] && (attrs + [a])[1..] == attrs[1..] + [a];
      match ApplyAttribute(d, attrs[0])
      case Err(e) =>
      case Ok(d') => ApplyAttributesSnoc(d', attrs[1..], a);
    }
  }

  /** The parser raises exactly when some attribute is empty or is an `h` with no size. */
  lemma {:induction false} ErrorIff(d: FontDescriptor, attrs: seq<string>)
    ensures ApplyAttributes(d, attrs).Err? <==> exists k :: 0 <= k < |attrs| && BadAttribute(attrs[k])
    decreases |attrs|
  {
    if attrs != [] {
      match ApplyAttribute(d, attrs[0])
      case Err(e) =>
        assert BadAttribute(attrs[0]);
      case Ok(d') =>
        ErrorIff(d', attrs[1..]);
        assert !BadAttribute(attrs[0]);
        assert forall k :: 1 <= k < |attrs| ==> attrs[k] == attrs[1..][k - 1];
    }
  }

  /** The result is bold exactly when the start was bold or some attribute starts with `b`. */
  lemma {:induction false} BoldIff(d: FontDescriptor, attrs: seq<string>)
    ensures ApplyAttributes(d, attrs).Ok? ==>
      (ApplyAttributes(d, attrs).value.bold <==>
       d.bold || exists k :: 0 <= k < |attrs| && StartsWith(attrs[k], 'b'))
    decreases |attrs|
  {
    if attrs != [] {
      match ApplyAttribute(d, attrs[0])
      case Err(e) =>
      case Ok(d') =>
        BoldIff(d', attrs[1..]);
        assert d'.bold == (d.bold || StartsWith(attrs[0], 'b'));
        assert forall k :: 1 <= k < |attrs| ==> attrs[k] == attrs[1..][k - 1];
    }
  }

  /** The result is italic exactly when the start was italic or some attribute starts with `i`. */
  lemma {:induction false} ItalicIff(d: FontDescriptor, attrs: seq<string>)
    ensures ApplyAttributes(d, attrs).Ok? ==>
      (ApplyAttributes(d, attrs).value.italic <==>
       d.italic || exists k :: 0 <= k < |attrs| && StartsWith(attrs[k], 'i'))
    decreases |attrs|
  {
    if attrs != [] {
      match ApplyAttribute(d, attrs[0])
      case Err(e) =>
      case Ok(d') =>
        ItalicIff(d', attrs[1..]);
        assert d'.italic == (d.italic || StartsWith(attrs[0], 'i'));
        assert forall k :: 1 <= k < |attrs| ==> attrs[k] == attrs[1..][k - 1];
    }
  }

  /**
   * Reference definition of the size, read from the back: the size of the
   * LAST `h` attribute, or `default` when there is none.
   */
  function LastSize(attrs: seq<string>, default: Option<nat>): Option<nat>
    decreases |attrs|
  {
    if attrs == [] then default
    else
      var a := attrs[|attrs| - 1];
      if StartsWith(a, 'h') then ParseNat(a[1..]) else LastSize(attrs[..|attrs| - 1], default)
  }

  /** When several `h` attributes appear, the last one determines the size. */
  lemma {:induction false} SizeIsLast(d: FontDescriptor, attrs: seq<string>)
    ensures ApplyAttributes(d, attrs).Ok? ==> ApplyAttributes(d, attrs).value.size == LastSize(attrs, d.size)
    decreases |attrs|
  {
    if attrs != [] {
      var init, a := attrs[..|attrs| - 1], attrs[|attrs| - 1];
      assert attrs == init + [a];
      ApplyAttributesSnoc(d, init, a);
      SizeIsLast(d, init);
    }
  }

  /** Inserting an attribute that does not start with `h`, `b` or `i` anywhere changes nothing. */
  lemma {:induction false} UnknownIgnored(d: FontDescriptor, before: seq<string>, a: string, after: seq<string>)
    requires a != [] && a[0] != 'h' && a[0] != 'b' && a[0] != 'i'
    ensures ApplyAttributes(d, before + [a] + after) == ApplyAttributes(d, before + after)
    decreases |before|
  {
    if before == [] {
      assert before + [a] + after == [a] + after;
      assert ([a] + after)[1..] == after;
      assert before + after == after;
    } else {
      assert (before + [a] + after)[0] == before[0];
      assert (before + [a] + after)[1..] == before[1..] + [a] + after;
      assert (before + after)[0] == before[0];
      assert (before + after)[1..] == before[1..] + after;
      match ApplyAttribute(d, before[0])
      case Err(e) =>
      case Ok(d') => UnknownIgnored(d', before[1..], a, after);
    }
  }

  /**
   * The parsed family is the text before the first `:` with every `_`
   * turned into a space, whatever the attributes say.
   */
  lemma ParsedFamily(fontStr: string)
    ensures var first := Split(fontStr, ':')[0];
      first <= fontStr && ':' !in first && (|first| < |fontStr| ==> fontStr[|first|] == ':') &&
      (Parse(fontStr).Ok? ==> Parse(fontStr).value.family == UnderscoresToSpaces(first))
  {
    var segments := Split(fontStr, ':');
    FirstSegment(fontStr, ':');
  }

  /** A spec built from a family and attributes parses to the fold of those attributes. */
  lemma ParseOfJoin(family: string, attrs: seq<string>)
    requires ':' !in family
    requires forall k :: 0 <= k < |attrs| ==> ':' !in attrs[k]
    ensures Parse(Join([family] + attrs, ':')) == ApplyAttributes(Initial(family), attrs)
  {
    var segments := [family] + attrs;
    assert segments[0] == family && segments[1..] == attrs;
    forall k | 0 <= k < |segments| ensures ':' !in segments[k] {
      if k > 0 { assert segments[k] == attrs[k - 1]; }
    }
    var fontStr := Join(segments, ':');
    SplitJoin(segments, ':');
    assert Parse(fontStr) == ApplyAttributes(Initial(segments[0]), segments[1..]);
  }

  /** `h` followed by the spelling of `n` sets the size to `n`. */
  lemma SizeAttribute(d: FontDescriptor, n: nat)
    ensures ApplyAttribute(d, ['h'] + ShowNat(n)) == Ok(d.(size := Some(n)))
  {
    ParseShowNat(n);
    assert (['h'] + ShowNat(n))[1..] == ShowNat(n);
  }

  /** Worked example: family with an underscore, a size, bold and italic. */
  lemma ExampleFull(fontStr: string, family: string, attrs: seq<string>)
    requires fontStr == "Monospace_10:h14:b:i"
    requires family == "Monospace_10" && attrs == ["h14", "b", "i"]
    ensures Parse(fontStr) == Ok(FontDescriptor("Monospace 10", Some(14), true, true))
  {
    ExampleFullSplit(fontStr, family, attrs);
    ExampleFullAttributes(family, attrs);
  }

  lemma ExampleFullSplit(fontStr: string, family: string, attrs: seq<string>)
    requires fontStr == "Monospace_10:h14:b:i"
    requires family == "Monospace_10" && attrs == ["h14", "b", "i"]
    ensures Parse(fontStr) == ApplyAttributes(Initial(family), attrs)
  {
    ExampleFullJoin([family] + attrs);
    ParseOfJoin(family, attrs);
  }

  lemma ExampleFullJoin(segments: seq<string>)
    requires segments == ["Monospace_10", "h14", "b", "i"]
    ensures Join(segments, ':') == "Monospace_10:h14:b:i"
  {
    assert segments[1..][1..][1..] == ["i"];
    assert Join(segments[1..][1..], ':') == "b:i";
    assert Join(segments[1..], ':') == "h14:b:i";
    assert Join(segments, ':') == "Monospace_10" + ":" + "h14:b:i";
  }

  lemma ExampleFullAttributes(family: string, attrs: seq<string>)
    requires family == "Monospace_10" && attrs == ["h14", "b", "i"]
    ensures ApplyAttributes(Initial(family), attrs) == Ok(FontDescriptor("Monospace 10", Some(14), true, true))
  {
    var d0 := Initial(family);
    assert d0 == FontDescriptor("Monospace 10", None, false, false) by {
      var r := UnderscoresToSpaces(family);
      assert |r| == 12 && forall k :: 0 <= k < 12 ==> r[k] == "Monospace 10"[k];
    }
    var size := attrs[0][1..];
    assert size == "14";
    assert DigitsValue(size) == 14 by {
      assert size[..1] == "1" && size[..1][..0] == "";
      assert DigitsValue(size[..1][..0]) == 0;
      assert DigitsValue(size[..1]) == 1;
      assert DigitsValue(size) == DigitsValue(size[..1]) * 10 + 4;
    }
    var d1 := d0.(size := Some(14));
    assert ApplyAttribute(d0, attrs[0]) == Ok(d1);
    var d2 := d1.(bold := true);
    var d3 := d2.(italic := true);
    var rest := attrs[1..];
    assert rest == ["b", "i"] && rest[1..] == ["i"] && rest[1..][1..] == [];
    assert ApplyAttributes(d3, rest[1..][1..]) == Ok(d3);
    assert ApplyAttributes(d2, rest[1..]) == Ok(d3);
    assert ApplyAttributes(d1, rest) == Ok(d3);
  }

  /** Worked example: an attribute with an unknown letter is ignored. */
  lemma ExampleUnknown()
    ensures Parse("Foo:x9") == Ok(FontDescriptor("Foo", None, false, false))
  {
    ParseOfJoin("Foo", ["x9"]);
    assert ["Foo"] + ["x9"] == ["Foo", "x9"];
    assert Join(["x9"], ':') == "x9";
    assert Join(["Foo", "x9"], ':') == "Foo" + ":" + "x9";
    assert "Foo" + ":" + "x9" == "Foo:x9";
    assert UnderscoresToSpaces("Foo") == "Foo";
    assert ["x9"][1..] == [];
  }

  /** Worked example: an empty attribute segment is an error. */
  lemma ExampleEmpty()
    ensures Parse("Foo::h12") == Err(EmptyAttribute)
  {
    ParseOfJoin("Foo", ["", "h12"]);
    assert ["Foo"] + ["", "h12"] == ["Foo", "", "h12"];
    assert Join(["h12"], ':') == "h12";
    assert Join(["", "h12"], ':') == ":h12";
    assert Join(["Foo", "", "h12"], ':') == "Foo" + ":" + ":h12";
    assert "Foo" + ":" + ":h12" == "Foo::h12";
  }

  /** The text of the editor command before the echoed font string. */
  const GuiFontPrefix := "let g:GuiFont=\""

  /**
   * The editor command that echoes the applied font back as `g:GuiFont`:
   * the prefix, the original font string unmodified (no escaping), a closing quote.
   */
  function GuiFontCommand(fontStr: string): (cmd: string)
    ensures |cmd| == |GuiFontPrefix| + |fontStr| + 1
    ensures cmd[..|GuiFontPrefix|] == GuiFontPrefix && cmd[|cmd| - 1] == '"'
    ensures cmd[|GuiFontPrefix|..|cmd| - 1] == fontStr
  {
    GuiFontPrefix + fontStr + "\""
  }

  /** Different font strings give different commands: the editor can read back exactly what was applied. */
  lemma GuiFontCommandInjective(a: string, b: string)
    requires GuiFontCommand(a) == GuiFontCommand(b)
    ensures a == b
  {
    var ca, cb := GuiFontCommand(a), GuiFontCommand(b);
    assert a == ca[|GuiFontPrefix|..|ca| - 1];
  }
}
