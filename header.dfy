/**
 Building icon metadata from the text of a fetched sprite sheet: the id of
 the first `<g id="icon-…">` group, the width and height captured by the
 first occurrence of the literal pattern `<svg width="W" height="H"`, and the
 coordinate system (`viewBox`) the icon is drawn in.
 */
module SpriteHeader {
  import opened Scan

  /** Literal of `<g id="(icon-[^"]+)"` up to its run; the id is ID_PREFIX + run. */
  const ID_OPEN := "<g id=\"icon-"
  const ID_PREFIX := "icon-"
  /** Literal of `viewBox="([^"]+)"`. */
  const VIEWBOX_OPEN := "viewBox=\""

  /** The metadata of one icon; width and height are kept as written, units included. */
  datatype IconMeta = IconMeta(id: string, width: Option<string>, height: Option<string>, viewBox: string)

  /** Outcome of reading a sprite sheet: no icon id, an id but no usable
      geometry, or the metadata. */
  datatype ParseResult = NoId | NoGeometry | Parsed(meta: IconMeta)

  /** The metadata the loader derives from the fetched text `contents`. */
  function Parse(contents: string): (r: ParseResult)
    ensures r.Parsed? ==> |r.meta.id| > |ID_PREFIX| && r.meta.id[..|ID_PREFIX|] == ID_PREFIX
    ensures r.Parsed? ==> (r.meta.width.Some? <==> r.meta.height.Some?)
  {
    match FindAttr(contents, ID_OPEN, 0)
    case None => NoId
    case Some(idMatch) =>
      var id := ID_PREFIX + idMatch.text;
      var size := FindSize(contents, 0);
      var width := if size.Some? then Some(size.value.width) else None;
      var height := if size.Some? then Some(size.value.height) else None;
      match FindAttr(contents, VIEWBOX_OPEN, 0)
      case Some(viewBox) => Parsed(IconMeta(id, width, height, viewBox.text))
      case None =>
        if size.Some? then
          Parsed(IconMeta(id, width, height, SynthesizedViewBox(size.value.width, size.value.height)))
        else
          NoGeometry
  }

  /** The viewBox built from width and height when the sheet declares none:
      "0 0 W H" with the first "px" dropped from each. */
  function SynthesizedViewBox(width: string, height: string): (r: string)
    ensures !HasPx(width) && !HasPx(height) ==> r == "0 0 " + width + " " + height
    ensures |r| >= 4 && r[..4] == "0 0 "
    ensures |r| == 5 + |width| + |height| - (if HasPx(width) then 2 else 0) - (if HasPx(height) then 2 else 0)
    ensures exists w, h :: PxRemoved(width, w) && PxRemoved(height, h) && r == "0 0 " + w + " " + h
  {
    var w, h := StripFirstPx(width), StripFirstPx(height);
    assert PxRemoved(width, w) && PxRemoved(height, h);
    "0 0 " + w + " " + h
  }

  /** The sizes of a sheet opening with `<svg width="24px" height="24px"` give
      the viewBox "0 0 24 24"; sizes without "px" are kept whole. */
  lemma SynthesizedViewBoxExamples()
    ensures SynthesizedViewBox("24px", "24px") == "0 0 24 24"
    ensures SynthesizedViewBox("32", "1.5em") == "0 0 32 1.5em"
  {
  }

  /** The matching and branching of the loader, one field at a time, as the
      component does it after the fetch. */
  method BuildMeta(contents: string) returns (r: ParseResult)
    ensures r == Parse(contents)
  {
    var sizeMatch := FindSize(contents, 0);
    var viewBoxMatch := FindAttr(contents, VIEWBOX_OPEN, 0);
    var idMatch := FindAttr(contents, ID_OPEN, 0);
    if idMatch.None? {
      return NoId;
    }
    var id := ID_PREFIX + idMatch.value.text;
    var width: Option<string> := None;
    var height: Option<string> := None;
    if sizeMatch.Some? {
      width := Some(sizeMatch.value.width);
      height := Some(sizeMatch.value.height);
    }
    if viewBoxMatch.Some? {
      r := Parsed(IconMeta(id, width, height, viewBoxMatch.value.text));
    } else if sizeMatch.Some? {
      r := Parsed(IconMeta(id, width, height, SynthesizedViewBox(width.value, height.value)));
    } else {
      r := NoGeometry;
    }
  }

  // ---------------------------------------------------------------------------
  // What Parse promises, stated with the reference definitions of the patterns.
  // ---------------------------------------------------------------------------

  /** No metadata is built exactly when the sheet has no `<g id="icon-…">` match. */
  lemma NoIdExactly(contents: string)
    ensures Parse(contents) == NoId <==> !HasAttr(contents, ID_OPEN)
  {
    FindAttrIsFirst(contents, ID_OPEN);
  }

  /** The id is the capture of the first `<g id="icon-…">` match. */
  lemma IdIsFirstGroup(contents: string, i: nat, run: string)
    requires FirstAttr(contents, ID_OPEN, i, run)
    ensures Parse(contents) != NoId
    ensures Parse(contents).Parsed? ==> Parse(contents).meta.id == ID_PREFIX + run
  {
    FindAttrIsFirst(contents, ID_OPEN);
  }

  /** An explicit viewBox wins: with an id, the first `viewBox="…"` capture is
      the viewBox, whether or not width and height matched too. */
  lemma ExplicitViewBoxWins(contents: string, i: nat, viewBox: string)
    requires HasAttr(contents, ID_OPEN)
    requires FirstAttr(contents, VIEWBOX_OPEN, i, viewBox)
    ensures Parse(contents).Parsed? && Parse(contents).meta.viewBox == viewBox
  {
    FindAttrIsFirst(contents, ID_OPEN);
    FindAttrIsFirst(contents, VIEWBOX_OPEN);
  }

  /** With an id and a width/height match, width and height are the captures
      unchanged; when no viewBox is declared it is synthesised from them. */
  lemma SizeKeptAndSynthesized(contents: string, i: nat, w: string, h: string)
    requires HasAttr(contents, ID_OPEN)
    requires FirstSize(contents, i, w, h)
    ensures Parse(contents).Parsed?
    ensures Parse(contents).meta.width == Some(w) && Parse(contents).meta.height == Some(h)
    ensures !HasAttr(contents, VIEWBOX_OPEN) ==>
      Parse(contents).meta.viewBox == "0 0 " + StripFirstPx(w) + " " + StripFirstPx(h)
  {
    FindAttrIsFirst(contents, ID_OPEN);
    FindAttrIsFirst(contents, VIEWBOX_OPEN);
    FindSizeIsFirst(contents);
  }

  /** Without a width/height match, width and height stay unset. */
  lemma NoSizeNoDimensions(contents: string)
    requires !HasSize(contents)
    ensures Parse(contents).Parsed? ==> Parse(contents).meta.width == None && Parse(contents).meta.height == None
  {
    FindSizeIsFirst(contents);
  }

  /** The geometry error happens exactly when there is an id but neither a
      viewBox nor a width/height match. */
  lemma NoGeometryExactly(contents: string)
    ensures Parse(contents) == NoGeometry <==>
      HasAttr(contents, ID_OPEN) && !HasAttr(contents, VIEWBOX_OPEN) && !HasSize(contents)
  {
    FindAttrIsFirst(contents, ID_OPEN);
    FindAttrIsFirst(contents, VIEWBOX_OPEN);
    FindSizeIsFirst(contents);
  }
}
