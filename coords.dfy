/**
 The park coordinate parser: the upstream `latLong` text has the shape
 `"lat:<LAT>, long:<LON>"`. The labels are removed, the rest is split on `,`
 and each of the first two pieces is stripped and handed to `float()`.
 `float()` is a parameter, so the model is about the text, not the numbers.
 */
module Coordinates {
  import opened Wrappers
  import opened Py
  import opened PyStr

  /** Python's `float()` on a string: a value, or `None` where it raises. */
  type FloatParser = string -> Option<real>

  /** The `(lat, lon)` pair the parser leaves behind. */
  datatype LatLong = LatLong(latitude: Option<real>, longitude: Option<real>)

  const NoCoordinates := LatLong(None, None)

  /**
   The body of the `try`: `lat` is assigned before the longitude piece is
   looked at, so a missing or unparsable second piece leaves the latitude set.
   */
  function ParseLabelled(s: string, parseFloat: FloatParser): (c: LatLong)
    ensures c.longitude.Some? ==> c.latitude.Some?
  {
    var parts := Split(Replace(Replace(s, "lat:", ""), "long:", ""), ',');
    match parseFloat(Strip(parts[0]))
    case None => NoCoordinates
    case Some(lat) =>
      if |parts| < 2 then LatLong(Some(lat), None)
      else LatLong(Some(lat), parseFloat(Strip(parts[1])))
  }

  /**
   `latlong = p.get("latLong", "")` followed by the guarded parse. A falsy
   value gives no coordinates. On a truthy value the membership test
   `"lat:" in latlong` runs outside the `try`: it raises on a number or `True`;
   on a list or a dict it may hold, but `.replace` then raises inside the `try`
   and is swallowed; on a string it decides whether the `try` runs at all.
   */
  function ParseLatLong(v: Json, parseFloat: FloatParser): (r: Result<LatLong, PyError>)
    ensures r.Err? <==> (v.Int? && v.i != 0) || v == Bool(true)
    ensures r.Err? ==> r.error == TypeError
    ensures r.Ok? && r.value != NoCoordinates ==> v.Str? && Contains(v.s, "lat:")
    ensures r.Ok? && r.value.longitude.Some? ==> r.value.latitude.Some?
  {
    if !Truthy(v) then Ok(NoCoordinates)
    else
      match v
      case Str(s) => if Contains(s, "lat:") then Ok(ParseLabelled(s, parseFloat)) else Ok(NoCoordinates)
      case Int(_) => Err(TypeError)
      case Bool(_) => Err(TypeError)
      case _ => Ok(NoCoordinates)
  }

  /** Position `i` of `s` cannot start `p` when the characters at offset `j` differ. */
  lemma MismatchAt(s: string, p: string, i: nat, j: nat)
    requires i + j < |s| && j < |p| && s[i + j] != p[j]
    ensures !StartsWith(s[i..], p)
  {
    assert |p| <= |s[i..]| ==> s[i..][..|p|][j] == s[i + j];
  }

  /** Removing `"lat:"`: the only ':' after the label closes ", long:", preceded by "ong". */
  lemma RemoveLatLabel(a: string, rest: string)
    requires ':' !in a && ':' !in rest
    ensures Replace("lat:" + (a + ", long:" + rest), "lat:", "") == a + ", long:" + rest
  {
    var s1 := a + ", long:" + rest;
    ReplaceHead("lat:", s1, "");
    forall i | 0 <= i < |s1| ensures !StartsWith(s1[i..], "lat:") {
      if i + 3 < |s1| {
        if i + 3 < |a| {
          assert s1[i + 3] == a[i + 3];
          MismatchAt(s1, "lat:", i, 3);
        } else if i + 3 < |a| + 6 {
          assert s1[i + 3] == ", long:"[i + 3 - |a|];
          MismatchAt(s1, "lat:", i, 3);
        } else if i + 3 == |a| + 6 {
          assert s1[i] == 'o';
          MismatchAt(s1, "lat:", i, 0);
        } else {
          assert s1[i + 3] == rest[i + 3 - |a| - 7];
          MismatchAt(s1, "lat:", i, 3);
        }
      }
    }
    ReplaceSkip(s1, "lat:", "", |s1|);
    assert s1[..|s1|] == s1;
    assert s1[|s1|..] == [];
  }

  /** Before the ", " that precedes it, no position of the text starts `"long:"`. */
  lemma NoLongLabelBefore(a: string, rest: string)
    requires ':' !in a
    ensures forall i :: 0 <= i < |a| + 2 ==> !StartsWith((a + ", long:" + rest)[i..], "long:")
  {
    var s1 := a + ", long:" + rest;
    forall i | 0 <= i < |a| + 2 ensures !StartsWith(s1[i..], "long:") {
      if i + 4 < |a| {
        assert s1[i + 4] == a[i + 4];
      } else {
        assert s1[i + 4] == ", long:"[i + 4 - |a|];
      }
      MismatchAt(s1, "long:", i, 4);
    }
  }

  /** Removing `"long:"`: nothing before ", " can start a match. */
  lemma RemoveLongLabel(a: string, rest: string)
    requires ':' !in a && ':' !in rest
    ensures Replace(a + ", long:" + rest, "long:", "") == a + ", " + rest
  {
    var head, tag := a + ", ", "long:";
    var s1 := head + (tag + rest);
    assert s1 == a + ", long:" + rest;
    NoLongLabelBefore(a, rest);
    var n := |head|;
    ReplaceSkip(s1, tag, "", n);
    assert s1[..n] == head && s1[n..] == tag + rest;
    ReplaceHead(tag, rest, "");
    ReplaceWithoutLast(rest, tag, "");
    calc {
      Replace(s1, tag, "");
      head + Replace(tag + rest, tag, "");
      head + ("" + rest);
      { assert "" + rest == rest; }
      head + rest;
    }
  }

  /** Splitting the cleaned text: `a`, then `" " + b`, then whatever the tail holds. */
  lemma SplitCleaned(a: string, b: string, tail: string)
    requires ',' !in a && ',' !in b
    requires tail == [] || tail[0] == ','
    ensures |Split(a + ", " + (b + tail), ',')| >= 2
    ensures Split(a + ", " + (b + tail), ',')[0] == a
    ensures Split(a + ", " + (b + tail), ',')[1] == [' '] + b
  {
    assert a + ", " + (b + tail) == a + [','] + ([' '] + b + tail);
    SplitAtFirst(a, [' '] + b + tail, ',');
    assert ',' !in [' '] + b;
    if tail == [] {
      assert [' '] + b + tail == [' '] + b;
      SplitNoSep([' '] + b, ',');
    } else {
      assert [' '] + b + tail == ([' '] + b) + [','] + tail[1..];
      SplitAtFirst([' '] + b, tail[1..], ',');
    }
  }

  /**
   The labelled shape: for `"lat:" + a + ", long:" + b`, optionally followed
   by further comma-separated pieces that are ignored, the latitude is
   `float(a.strip())` and the longitude `float(b.strip())`, except that a failed
   latitude leaves both absent.
   */
  lemma WellFormed(a: string, b: string, tail: string, parseFloat: FloatParser)
    requires ':' !in a && ',' !in a && ':' !in b && ',' !in b && ':' !in tail
    requires tail == [] || tail[0] == ','
    ensures ParseLatLong(Str("lat:" + a + ", long:" + b + tail), parseFloat)
         == Ok(match parseFloat(Strip(a))
               case None => NoCoordinates
               case Some(lat) => LatLong(Some(lat), parseFloat(Strip(b))))
  {
    var s0 := "lat:" + (a + ", long:" + (b + tail));
    assert s0 == "lat:" + a + ", long:" + b + tail;
    Labelled(a + ", long:" + (b + tail));
    LabelledPair(a, b, tail, parseFloat);
  }

  /** The parse inside the `try` for the labelled shape. */
  lemma LabelledPair(a: string, b: string, tail: string, parseFloat: FloatParser)
    requires ':' !in a && ',' !in a && ':' !in b && ',' !in b && ':' !in tail
    requires tail == [] || tail[0] == ','
    ensures ParseLabelled("lat:" + (a + ", long:" + (b + tail)), parseFloat)
         == match parseFloat(Strip(a))
            case None => NoCoordinates
            case Some(lat) => LatLong(Some(lat), parseFloat(Strip(b)))
  {
    var rest := b + tail;
    var s0 := "lat:" + (a + ", long:" + rest);
    assert Replace(Replace(s0, "lat:", ""), "long:", "") == a + ", " + rest by {
      RemoveLatLabel(a, rest);
      RemoveLongLabel(a, rest);
    }
    SplitCleaned(a, b, tail);
    TwoPieces(s0, a, [' '] + b, parseFloat);
    StripSpaceFirst(' ', b);
  }

  /** When cleaning leaves two pieces or more, the first two are parsed and the rest ignored. */
  lemma TwoPieces(s: string, x: string, y: string, parseFloat: FloatParser)
    requires var parts := Split(Replace(Replace(s, "lat:", ""), "long:", ""), ',');
      |parts| >= 2 && parts[0] == x && parts[1] == y
    ensures ParseLabelled(s, parseFloat)
         == match parseFloat(Strip(x))
            case None => NoCoordinates
            case Some(lat) => LatLong(Some(lat), parseFloat(Strip(y)))
  {
  }

  /** Text that starts with the label passes the guard of the `try`. */
  lemma Labelled(rest: string)
    ensures "lat:" + rest != "" && Contains("lat:" + rest, "lat:")
  {
    var s0 := "lat:" + rest;
    assert StartsWith(s0, "lat:") by { assert s0[..4] == "lat:"; }
  }

  /** With no ',' and no ':' after the label, cleaning leaves one piece. */
  lemma CleanedSinglePiece(a: string)
    requires ':' !in a && ',' !in a
    ensures Split(Replace(Replace("lat:" + a, "lat:", ""), "long:", ""), ',') == [a]
  {
    var r1 := Replace("lat:" + a, "lat:", "");
    assert r1 == a by {
      ReplaceHead("lat:", a, "");
      ReplaceWithoutLast(a, "lat:", "");
    }
    var r2 := Replace(r1, "long:", "");
    assert r2 == a by {
      ReplaceWithoutLast(a, "long:", "");
    }
    SplitNoSep(a, ',');
  }

  /** When cleaning leaves a single piece, only the latitude can be set. */
  lemma OnePiece(s: string, a: string, parseFloat: FloatParser)
    requires Split(Replace(Replace(s, "lat:", ""), "long:", ""), ',') == [a]
    ensures ParseLabelled(s, parseFloat) == LatLong(parseFloat(Strip(a)), None)
  {
  }

  /**
   A latitude with no longitude half: the index of the missing second piece
   raises after `lat` was assigned, so the latitude survives alone.
   */
  lemma LatitudeOnly(a: string, parseFloat: FloatParser)
    requires ':' !in a && ',' !in a
    ensures ParseLatLong(Str("lat:" + a), parseFloat) == Ok(LatLong(parseFloat(Strip(a)), None))
  {
    var s0 := "lat:" + a;
    Labelled(a);
    assert ParseLatLong(Str(s0), parseFloat) == Ok(ParseLabelled(s0, parseFloat));
    CleanedSinglePiece(a);
    OnePiece(s0, a, parseFloat);
  }

  /** The two halves of a typical upstream value carry no whitespace, comma or colon. */
  lemma AcadiaHalves(a: string, b: string)
    requires a == "44.35" && b == "-68.21"
    ensures Strip(a) == a && Strip(b) == b
    ensures ':' !in a && ',' !in a && ':' !in b && ',' !in b
  {
    assert a == ['4', '4', '.', '3', '5'];
    assert b == ['-', '6', '8', '.', '2', '1'];
    StripTrimmed(a);
    StripTrimmed(b);
  }

  /** A typical upstream value cut at its labels. */
  lemma AcadiaPieces(latLong: string)
    requires latLong == "lat:44.35, long:-68.21"
    ensures latLong == "lat:" + latLong[4..9] + ", long:" + latLong[16..] + ""
    ensures latLong[4..9] == "44.35" && latLong[16..] == "-68.21"
  {
  }

  /** A typical upstream value, `"lat:44.35, long:-68.21"`, gives both coordinates. */
  lemma AcadiaExample(latLong: string, parseFloat: FloatParser)
    requires latLong == "lat:44.35, long:-68.21"
    requires parseFloat("44.35") == Some(44.35) && parseFloat("-68.21") == Some(-68.21)
    ensures ParseLatLong(Str(latLong), parseFloat) == Ok(LatLong(Some(44.35), Some(-68.21)))
  {
    AcadiaPieces(latLong);
    var a, b := latLong[4..9], latLong[16..];
    AcadiaHalves(a, b);
    WellFormed(a, b, "", parseFloat);
  }
}
