/** The text side of the MusicXML export: a fixed prolog (an XML declaration
    and the MusicXML 3.0 partwise document type declaration) is put in front
    of the body the notation exporter wrote, after the body's own first line
    is dropped when that line is an XML declaration. */
module MusicXml {
  import opened PyStr

  /** A body starting with this is taken to open with its own XML declaration. */
  const DeclarationMarker: string := "<?xml"

  /** A line starting with this is a document type declaration. */
  const DoctypeMarker: string := "<!DOCTYPE"

  /** The XML declaration of the prolog (section 2.8 of the W3C XML 1.0
      Recommendation), without its line break:
      `<?xml version="1.0" encoding='UTF-8' standalone='no' ?>`. */
  const XmlDeclarationLine: string :=
    DeclarationMarker + " version=\"1.0\"" + " encoding='UTF-8'" + " standalone='no'" + " ?>"

  /** The public identifier of the MusicXML 3.0 partwise DTD. */
  const PartwisePublicId: string := "-//Recordare//DTD MusicXML 3.0 Partwise//EN"

  /** The system identifier of the MusicXML partwise DTD. */
  const PartwiseSystemId: string := "http://www.musicxml.org/dtds/partwise.dtd"

  /** The MusicXML 3.0 `score-partwise` document type declaration, without
      its line break. */
  const DoctypeLine: string :=
    DoctypeMarker + " score-partwise PUBLIC " + "\"" + PartwisePublicId + "\" \"" + PartwiseSystemId + "\">"

  /** What every exported file begins with. */
  const Prolog: string := XmlDeclarationLine + "\n" + DoctypeLine + "\n"

  /** The exporter's body with its first line removed when that line is an
      XML declaration: `'\n'.join(content.split('\n')[1:])`. */
  function StripDeclaration(content: string): (stripped: string)
    ensures StartsWith(content, DeclarationMarker) && LineEnd(content) < |content| ==>
      stripped == content[LineEnd(content) + 1..]
    ensures StartsWith(content, DeclarationMarker) && LineEnd(content) == |content| ==>
      stripped == ""
    ensures !StartsWith(content, DeclarationMarker) ==> stripped == content
  {
    if StartsWith(content, DeclarationMarker) then
      DropFirstLine(content);
      Join(Split(content)[1..])
    else content
  }

  /** The text written to the output file. */
  function Splice(body: string): (out: string)
    ensures StartsWith(out, Prolog)
  {
    Prolog + StripDeclaration(body)
  }

  /** The declaration line holds no line break. */
  lemma DeclarationIsOneLine()
    ensures '\n' !in XmlDeclarationLine
  {
    assert '\n' !in DeclarationMarker && '\n' !in " version=\"1.0\"";
    assert '\n' !in " encoding='UTF-8'" && '\n' !in " standalone='no'" && '\n' !in " ?>";
  }

  /** The document type declaration line holds no line break. */
  lemma DoctypeIsOneLine()
    ensures '\n' !in DoctypeLine
  {
    assert '\n' !in DoctypeMarker && '\n' !in " score-partwise PUBLIC ";
    assert '\n' !in PartwisePublicId && '\n' !in PartwiseSystemId;
    assert '\n' !in "\"" && '\n' !in "\" \"" && '\n' !in "\">";
  }

  /** The lines of `Prolog + rest`: the declaration, the document type
      declaration, then the lines of `rest`. */
  lemma SplitAfterProlog(rest: string)
    ensures Split(Prolog + rest) == [XmlDeclarationLine, DoctypeLine] + Split(rest)
  {
    DeclarationIsOneLine();
    DoctypeIsOneLine();
    SplitTwoLines(XmlDeclarationLine, DoctypeLine, rest);
  }

  /** Whatever the body, the file's first line is the XML declaration and
      its second the MusicXML 3.0 document type declaration; so the file is
      never empty. */
  lemma SpliceHeader(body: string)
    ensures |Split(Splice(body))| >= 3
    ensures Split(Splice(body))[0] == XmlDeclarationLine
    ensures Split(Splice(body))[1] == DoctypeLine
    ensures |Splice(body)| > 0
  {
    SplitAfterProlog(StripDeclaration(body));
  }

  /** A body that opens with an XML declaration loses everything up to and
      including its first line break. */
  lemma SpliceDropsDeclaration(body: string)
    requires StartsWith(body, DeclarationMarker) && LineEnd(body) < |body|
    ensures Splice(body) == Prolog + body[LineEnd(body) + 1..]
  {
    var rest := body[LineEnd(body) + 1..];
    DropFirstLine(body);
    assert StripDeclaration(body) == rest;
  }

  /** A one-line body that is an XML declaration is dropped entirely. */
  lemma SpliceDropsOneLineBody(body: string)
    requires StartsWith(body, DeclarationMarker) && LineEnd(body) == |body|
    ensures Splice(body) == Prolog
  {
  }

  /** Any other body follows the prolog verbatim. */
  lemma SpliceKeepsBody(body: string)
    requires !StartsWith(body, DeclarationMarker)
    ensures Splice(body) == Prolog + body
  {
  }

  /** The number of document type declarations among `lines`. */
  function CountDoctypes(lines: seq<string>): nat
  {
    if |lines| == 0 then 0
    else (if StartsWith(lines[0], DoctypeMarker) then 1 else 0) + CountDoctypes(lines[1..])
  }

  lemma {:induction false} CountDoctypesAppend(a: seq<string>, b: seq<string>)
    ensures CountDoctypes(a + b) == CountDoctypes(a) + CountDoctypes(b)
  {
    if |a| > 0 {
      assert (a + b)[0] == a[0];
      assert (a + b)[1..] == a[1..] + b;
      CountDoctypesAppend(a[1..], b);
      assert CountDoctypes(a + b)
        == (if StartsWith(a[0], DoctypeMarker) then 1 else 0) + CountDoctypes(a[1..] + b);
    } else {
      assert a + b == b;
    }
  }

  /** The prolog's first line is not a document type declaration and its
      second line is. */
  lemma PrologLineKinds()
    ensures !StartsWith(XmlDeclarationLine, DoctypeMarker)
    ensures StartsWith(DoctypeLine, DoctypeMarker)
  {
    assert XmlDeclarationLine[1] == '?' != DoctypeMarker[1];
    assert DoctypeLine[..|DoctypeMarker|] == DoctypeMarker;
  }

  /** The prolog holds exactly one document type declaration. */
  lemma PrologDoctypes(rest: string)
    ensures CountDoctypes(Split(Prolog + rest)) == 1 + CountDoctypes(Split(rest))
  {
    SplitAfterProlog(rest);
    CountDoctypesAppend([XmlDeclarationLine, DoctypeLine], Split(rest));
    PrologLineKinds();
    assert [XmlDeclarationLine, DoctypeLine][1..] == [DoctypeLine];
    assert CountDoctypes([DoctypeLine]) == 1;
  }

  /** A body shaped as `decl \n doctype \n rest`: an XML declaration line, a
      document type declaration line, then a document with none of its own. */
  predicate ExporterShaped(decl: string, doctype: string, rest: string)
  {
    '\n' !in decl && '\n' !in doctype
    && StartsWith(decl, DeclarationMarker)
    && StartsWith(doctype, DoctypeMarker)
    && CountDoctypes(Split(rest)) == 0
  }

  /** The body of an exporter-shaped body once its declaration is stripped. */
  lemma StripExporterShaped(decl: string, doctype: string, rest: string)
    requires ExporterShaped(decl, doctype, rest)
    ensures StripDeclaration(decl + "\n" + doctype + "\n" + rest) == doctype + "\n" + rest
  {
    var body := decl + "\n" + (doctype + "\n" + rest);
    assert body == decl + "\n" + doctype + "\n" + rest;
    assert body[..|DeclarationMarker|] == decl[..|DeclarationMarker|];
    SplitLine(decl, doctype + "\n" + rest);
    assert Split(body)[1..] == Split(doctype + "\n" + rest);
    JoinSplit(doctype + "\n" + rest);
  }

  /** As written, only the declaration line is stripped: a body that also
      carries its own document type declaration on its second line leaves
      the file with two of them, where section 2.8 of the W3C XML 1.0
      Recommendation allows a prolog at most one. */
  lemma SpliceDuplicatesDoctype(decl: string, doctype: string, rest: string)
    requires ExporterShaped(decl, doctype, rest)
    ensures CountDoctypes(Split(Splice(decl + "\n" + doctype + "\n" + rest))) == 2
  {
    StripExporterShaped(decl, doctype, rest);
    PrologDoctypes(doctype + "\n" + rest);
    SplitLine(doctype, rest);
    CountDoctypesAppend([doctype], Split(rest));
  }

  /** Drops a leading document type declaration line. */
  function StripDoctype(content: string): (stripped: string)
    ensures StartsWith(content, DoctypeMarker) && LineEnd(content) < |content| ==>
      stripped == content[LineEnd(content) + 1..]
    ensures StartsWith(content, DoctypeMarker) && LineEnd(content) == |content| ==>
      stripped == ""
    ensures !StartsWith(content, DoctypeMarker) ==> stripped == content
  {
    if StartsWith(content, DoctypeMarker) then
      DropFirstLine(content);
      Join(Split(content)[1..])
    else content
  }

  /** A leading document type declaration line comes off whole. */
  lemma StripDoctypeLine(doctype: string, rest: string)
    requires '\n' !in doctype && StartsWith(doctype, DoctypeMarker)
    ensures StripDoctype(doctype + "\n" + rest) == rest
  {
    var c := doctype + "\n" + rest;
    assert c[..|DoctypeMarker|] == doctype[..|DoctypeMarker|];
    LineEndOfLine(doctype, rest);
    assert c[|doctype| + 1..] == rest;
  }

  /** The splice with the body's own document type declaration removed too,
      so that the prolog's is the only one. */
  function SpliceSingleDoctype(body: string): (out: string)
    ensures StartsWith(out, Prolog)
  {
    Prolog + StripDoctype(StripDeclaration(body))
  }

  /** The corrected splice leaves an exporter-shaped body with exactly one
      document type declaration, the MusicXML 3.0 one of the prolog. */
  lemma SingleDoctypeKeepsOne(decl: string, doctype: string, rest: string)
    requires ExporterShaped(decl, doctype, rest)
    ensures SpliceSingleDoctype(decl + "\n" + doctype + "\n" + rest) == Prolog + rest
    ensures CountDoctypes(Split(SpliceSingleDoctype(decl + "\n" + doctype + "\n" + rest))) == 1
  {
    var body := decl + "\n" + doctype + "\n" + rest;
    StripExporterShaped(decl, doctype, rest);
    StripDoctypeLine(doctype, rest);
    assert SpliceSingleDoctype(body) == Prolog + rest;
    PrologDoctypes(rest);
  }

  /** On a body that carries no document type declaration of its own after
      the stripped declaration, the corrected splice is the splice as written. */
  lemma SingleDoctypeAgrees(body: string)
    requires !StartsWith(StripDeclaration(body), DoctypeMarker)
    ensures SpliceSingleDoctype(body) == Splice(body)
  {
  }
}
