/** Reverse-geocoding results (CLPlacemark reduced to the address fields the app
    reads) and the rule both address formatters follow: every present field is
    appended, in a fixed order, followed by a fixed suffix. */
module Placemarks {
  import opened Wrappers

  /** A geographic coordinate in degrees (CLLocationCoordinate2D). */
  datatype Coordinate = Coordinate(latitude: real, longitude: real)

  /** The optional address fields of a CLPlacemark that the formatters use. */
  datatype Placemark = Placemark(
    subThoroughfare: Option<string>,
    thoroughfare: Option<string>,
    locality: Option<string>,
    administrativeArea: Option<string>,
    postalCode: Option<string>,
    country: Option<string>)

  /** One optional address field and the text written after it when it is present. */
  datatype Part = Part(field: Option<string>, suffix: string)

  /** What one `if let s = field { text += s + suffix }` step appends. */
  function Piece(p: Part): (piece: string)
    ensures p.field.None? ==> piece == ""
    ensures p.field.Some? ==>
      && |piece| == |p.field.value| + |p.suffix|
      && piece[..|p.field.value|] == p.field.value
      && piece[|p.field.value|..] == p.suffix
  {
    match p.field
    case None => ""
    case Some(s) => s + p.suffix
  }

  /** No part has its field present. */
  predicate NonePresent(parts: seq<Part>)
  {
    parts == [] || (parts[0].field.None? && NonePresent(parts[1..]))
  }

  /** The present parts, each followed by its suffix, in order; with none present
      the text is empty, whatever the suffixes. */
  function Render(parts: seq<Part>): (text: string)
    ensures NonePresent(parts) ==> text == ""
  {
    if parts == [] then "" else Piece(parts[0]) + Render(parts[1..])
  }

  lemma RenderPair(a: Part, b: Part)
    ensures Render([a, b]) == Piece(a) + Piece(b)
  {
    assert [a, b][1..] == [b];
    assert Render([b]) == Piece(b) + Render([]);
  }

  lemma RenderTriple(a: Part, b: Part, c: Part)
    ensures Render([a, b, c]) == Piece(a) + Piece(b) + Piece(c)
  {
    assert [a, b, c][1..] == [b, c];
    assert Render([a, b, c]) == Piece(a) + Render([b, c]);
    RenderPair(b, c);
  }

  lemma {:induction false} RenderAppend(a: seq<Part>, b: seq<Part>)
    ensures Render(a + b) == Render(a) + Render(b)
  {
    if a == [] {
      assert a + b == b;
    } else {
      assert (a + b)[1..] == a[1..] + b;
      RenderAppend(a[1..], b);
    }
  }

  /** The text is empty exactly when every part contributes nothing. */
  lemma {:induction false} RenderEmpty(parts: seq<Part>)
    ensures Render(parts) == "" <==> forall i :: 0 <= i < |parts| ==> Piece(parts[i]) == ""
  {
    if parts != [] {
      RenderEmpty(parts[1..]);
      assert forall i :: 1 <= i < |parts| ==> parts[i] == parts[1..][i - 1];
    }
  }

  /** Each present field occurs, followed by its suffix, exactly where the text of
      the parts before it ends: the fields appear in order and are not altered. */
  lemma RenderPlacesPart(parts: seq<Part>, i: nat)
    requires i < |parts| && parts[i].field.Some?
    ensures var at, s, sfx := |Render(parts[..i])|, parts[i].field.value, parts[i].suffix;
            && at + |s| + |sfx| <= |Render(parts)|
            && Render(parts)[at .. at + |s|] == s
            && Render(parts)[at + |s| .. at + |s| + |sfx|] == sfx
  {
    assert parts == (parts[..i] + [parts[i]]) + parts[i + 1..];
    RenderAppend(parts[..i] + [parts[i]], parts[i + 1..]);
    RenderAppend(parts[..i], [parts[i]]);
    assert Render([parts[i]]) == Piece(parts[i]) + Render([]);
  }

  predicate NoNewline(s: string)
  {
    forall k :: 0 <= k < |s| ==> s[k] != '\n'
  }

  predicate PartsWithoutNewline(parts: seq<Part>)
  {
    forall i :: 0 <= i < |parts| ==>
      NoNewline(parts[i].suffix) && (parts[i].field.Some? ==> NoNewline(parts[i].field.value))
  }

  lemma {:induction false} RenderWithoutNewline(parts: seq<Part>)
    ensures PartsWithoutNewline(parts) ==> NoNewline(Render(parts))
  {
    if parts != [] && PartsWithoutNewline(parts) {
      assert PartsWithoutNewline(parts[1..]) by {
        forall i | 0 <= i < |parts[1..]|
          ensures NoNewline(parts[1..][i].suffix)
          ensures parts[1..][i].field.Some? ==> NoNewline(parts[1..][i].field.value)
        {
          assert parts[1..][i] == parts[i + 1];
        }
      }
      RenderWithoutNewline(parts[1..]);
      assert PartsWithoutNewline([parts[0]]);
    }
  }

  /** Splits a text at its first newline: the text before it and the text after it
      (a text without a newline is all first line). */
  function SplitAtNewline(text: string): (lines: (string, string))
    ensures NoNewline(lines.0)
    ensures |lines.0| <= |text|
  {
    if text == [] then ("", "")
    else if text[0] == '\n' then ("", text[1..])
    else
      var rest := SplitAtNewline(text[1..]);
      ([text[0]] + rest.0, rest.1)
  }

  /** Joining two lines with a newline and splitting at the first newline gives the
      lines back, provided the first has no newline of its own. */
  lemma {:induction false} SplitAfterJoin(line1: string, line2: string)
    requires NoNewline(line1)
    ensures SplitAtNewline(line1 + "\n" + line2) == (line1, line2)
  {
    if line1 == [] {
      assert line1 + "\n" + line2 == ['\n'] + line2;
    } else {
      var text := line1 + "\n" + line2;
      assert text[0] == line1[0] && text[0] != '\n';
      assert text[1..] == line1[1..] + "\n" + line2;
      SplitAfterJoin(line1[1..], line2);
      assert [line1[0]] + line1[1..] == line1;
    }
  }
}
