/**
 * The text-building parts of the retrieval system: rendering knowledge-base
 * records as text, turning a JSON-lines knowledge base into documents,
 * assembling search results from the labels the vector index returns, and
 * joining retrieved documents into the context handed to the language model.
 *
 * A knowledge-base record is a JSON object whose scalar fields and property
 * values are already rendered as strings; a record with no "properties" key
 * has the empty property list.
 */
module Rag {
  import opened Wrappers

  /** One key/value pair of a record's "properties" object, in insertion order. */
  datatype Property = Property(key: string, value: string)

  /** One JSON object of the knowledge base. */
  datatype Record = Record(fields: map<string, string>, properties: seq<Property>)

  /**
   * One line of the knowledge-base file. `Parsed` carries the decoded object
   * as a record together with `dumped`, the JSON text `json.dumps` makes of
   * the decoded value (key order, JSON types and all). `Malformed` is every
   * line on which the loading loop raises:
   * - text that fails to decode;
   * - `null`, `true`, `false` or a number;
   * - a string, or an array, that contains "type" or "source";
   * - an object with a "type" or "source" key whose "properties" is not an object.
   * An object with neither key is `Parsed` and skipped, whatever its
   * "properties" holds; so is a string or an array holding neither word, as
   * `Parsed` of a record with no fields.
   */
  datatype Line = Parsed(data: Record, dumped: string) | Malformed

  /** A text chunk with its metadata. */
  datatype Document = Document(pageContent: string, metadata: map<string, string>)

  /** How a record is rendered, if at all. */
  datatype Kind = EntityKind | RelationshipKind | Skipped

  /** Python's `dict.get(key, default)`. */
  function Get(m: map<string, string>, key: string, default: string): string {
    if key in m then m[key] else default
  }

  // ---------------------------------------------------------------------------
  // Counting line breaks
  // ---------------------------------------------------------------------------

  /** The number of line breaks in `s`. */
  function NewlineCount(s: string): (n: nat)
    ensures n <= |s|
  {
    if s == [] then 0
    else (if s[0] == '\n' then 1 else 0) + NewlineCount(s[1..])
  }

  predicate NoNewline(s: string) {
    forall i :: 0 <= i < |s| ==> s[i] != '\n'
  }

  lemma {:induction false} NewlineCountAppend(a: string, b: string)
    ensures NewlineCount(a + b) == NewlineCount(a) + NewlineCount(b)
  {
    if a == [] {
      assert a + b == b;
    } else {
      var ab := a + b;
      assert ab[0] == a[0] && ab[1..] == a[1..] + b;
      NewlineCountAppend(a[1..], b);
    }
  }

  lemma {:induction false} NoNewlineCount(s: string)
    requires NoNewline(s)
    ensures NewlineCount(s) == 0
  {
    if s != [] {
      var rest := s[1..];
      assert NoNewline(rest) by {
        forall i | 0 <= i < |rest| ensures rest[i] != '\n' {
          assert rest[i] == s[i + 1];
        }
      }
      NoNewlineCount(rest);
    }
  }

  // ---------------------------------------------------------------------------
  // Rendering records
  // ---------------------------------------------------------------------------

  /** The indented line written for one property. */
  function PropertyLine(p: Property): string {
    "  " + p.key + ": " + p.value + "\n"
  }

  /** The lines written for a list of properties, one per property, in order. */
  function PropertyBlock(props: seq<Property>): string {
    if props == [] then ""
    else PropertyLine(props[0]) + PropertyBlock(props[1..])
  }

  /** The first line of an entity: its type ("Unknown" if absent) and its id ("" if absent). */
  function EntityHeader(data: Record): string {
    Get(data.fields, "type", "Unknown") + ": " + Get(data.fields, "id", "") + "\n"
  }

  /** The first line of a relationship; absent endpoints and relation render as "". */
  function RelationshipHeader(data: Record): string {
    "Relationship: " + Get(data.fields, "source", "") + " --[" + Get(data.fields, "relation", "")
      + "]--> " + Get(data.fields, "target", "") + "\n"
  }

  function EntityText(data: Record): string {
    EntityHeader(data) + PropertyBlock(data.properties)
  }

  function RelationshipText(data: Record): string {
    RelationshipHeader(data) + PropertyBlock(data.properties)
  }

  /** A non-empty list of properties renders as text ending in a line break. */
  lemma {:induction false} PropertyBlockEndsWithNewline(props: seq<Property>)
    requires props != []
    ensures |PropertyBlock(props)| > 0 && PropertyBlock(props)[|PropertyBlock(props)| - 1] == '\n'
  {
    var line, rest := PropertyLine(props[0]), PropertyBlock(props[1..]);
    if props[1..] != [] {
      PropertyBlockEndsWithNewline(props[1..]);
    }
    EndsWithNewline(line, rest);
  }

  /** Rendering distributes over concatenation of property lists. */
  lemma {:induction false} PropertyBlockAppend(a: seq<Property>, b: seq<Property>)
    ensures PropertyBlock(a + b) == PropertyBlock(a) + PropertyBlock(b)
  {
    if a == [] {
      assert a + b == b;
    } else {
      var ab := a + b;
      assert ab[0] == a[0] && ab[1..] == a[1..] + b;
      PropertyBlockAppend(a[1..], b);
    }
  }

  /** One more property adds its line at the end. */
  lemma PropertyBlockSnoc(props: seq<Property>, p: Property)
    ensures PropertyBlock(props + [p]) == PropertyBlock(props) + PropertyLine(p)
  {
    PropertyBlockAppend(props, [p]);
    assert [p][1..] == [];
  }

  /**
   * The i-th property's line sits between the lines of the properties before
   * it and those of the properties after it: one line per property, in order.
   */
  lemma {:induction false} PropertyLineAt(props: seq<Property>, i: nat)
    requires i < |props|
    ensures PropertyBlock(props) ==
            PropertyBlock(props[..i]) + PropertyLine(props[i]) + PropertyBlock(props[i + 1..])
  {
    if i == 0 {
      assert props[..0] == [];
    } else {
      PropertyLineAt(props[1..], i - 1);
      PropertyBlockPrefix(props, i);
      TailSlices(props, i);
      AppendAssoc(PropertyLine(props[0]), PropertyBlock(props[1..][..i - 1]), PropertyLine(props[i]),
                  PropertyBlock(props[i + 1..]));
    }
  }

  /** A non-empty prefix of the properties renders as its first line, then the rest of the prefix. */
  lemma PropertyBlockPrefix(props: seq<Property>, i: nat)
    requires 1 <= i <= |props|
    ensures PropertyBlock(props[..i]) == PropertyLine(props[0]) + PropertyBlock(props[1..][..i - 1])
  {
    var pre := props[..i];
    assert pre[0] == props[0] && pre[1..] == props[1..][..i - 1];
  }

  /** Positions past the head of `s`, seen from its tail. */
  lemma TailSlices<T>(s: seq<T>, i: nat)
    requires 1 <= i < |s|
    ensures s[1..][i - 1] == s[i] && s[1..][i..] == s[i + 1..]
  {
  }

  lemma AppendAssoc<T>(h: seq<T>, a: seq<T>, b: seq<T>, c: seq<T>)
    ensures h + (a + b + c) == h + a + b + c
  {
  }

  /** A property line with a newline-free key and value holds exactly one line break. */
  lemma PropertyLineNewlines(p: Property)
    requires NoNewline(p.key) && NoNewline(p.value)
    ensures NewlineCount(PropertyLine(p)) == 1
  {
    var indent, colon := "  ", ": ";
    assert NoNewline(indent) && NoNewline(colon);
    NoNewlineAppend(indent, p.key);
    NoNewlineAppend(indent + p.key, colon);
    NoNewlineAppend(indent + p.key + colon, p.value);
    OneLine(indent + p.key + colon + p.value);
  }

  /** Keys and values without line breaks give exactly one line break per property. */
  lemma {:induction false} PropertyBlockNewlines(props: seq<Property>)
    requires SingleLineProperties(props)
    ensures NewlineCount(PropertyBlock(props)) == |props|
  {
    if props != [] {
      var rest := props[1..];
      assert SingleLineProperties(rest) by {
        forall i | 0 <= i < |rest| ensures NoNewline(rest[i].key) && NoNewline(rest[i].value) {
          assert rest[i] == props[i + 1];
        }
      }
      PropertyBlockNewlines(rest);
      PropertyLineNewlines(props[0]);
      NewlineCountAppend(PropertyLine(props[0]), PropertyBlock(rest));
    }
  }

  /** No property key or value holds a line break. */
  predicate SingleLineProperties(props: seq<Property>) {
    forall i :: 0 <= i < |props| ==> NoNewline(props[i].key) && NoNewline(props[i].value)
  }

  /** Text ending in a line break keeps ending in one when more such text follows. */
  lemma EndsWithNewline(h: string, b: string)
    requires |h| > 0 && h[|h| - 1] == '\n'
    requires |b| > 0 ==> b[|b| - 1] == '\n'
    ensures |h + b| > 0 && (h + b)[|h + b| - 1] == '\n'
  {
    if b == [] {
      assert h + b == h;
    } else {
      assert (h + b)[|h + b| - 1] == b[|b| - 1];
    }
  }

  lemma NoNewlineAppend(a: string, b: string)
    requires NoNewline(a) && NoNewline(b)
    ensures NoNewline(a + b)
  {
    forall i | 0 <= i < |a + b| ensures (a + b)[i] != '\n' {
      if i < |a| {
        assert (a + b)[i] == a[i];
      } else {
        assert (a + b)[i] == b[i - |a|];
      }
    }
  }

  /** A newline-free text followed by a line break is exactly one line. */
  lemma OneLine(x: string)
    requires NoNewline(x)
    ensures NewlineCount(x + "\n") == 1
  {
    NoNewlineCount(x);
    NewlineCountAppend(x, "\n");
    assert "\n"[1..] == [];
  }

  /**
   * An entity's text starts with its header line (type "Unknown" when the
   * record has none) and ends with a line break.
   */
  lemma EntityTextShape(data: Record)
    ensures EntityText(data)[..|EntityHeader(data)|] == EntityHeader(data)
    ensures "type" !in data.fields ==> EntityText(data)[..9] == "Unknown: "
    ensures |EntityText(data)| > 0 && EntityText(data)[|EntityText(data)| - 1] == '\n'
  {
    var h, b := EntityHeader(data), PropertyBlock(data.properties);
    assert EntityText(data) == h + b;
    assert (h + b)[..|h|] == h;
    if "type" !in data.fields {
      assert h == "Unknown: " + Get(data.fields, "id", "") + "\n";
      assert (h + b)[..9] == h[..9];
    }
    if data.properties != [] {
      PropertyBlockEndsWithNewline(data.properties);
    }
    EndsWithNewline(h, b);
  }

  /** An entity whose printed values hold no line break renders as exactly 1 + |properties| lines. */
  lemma EntityTextLines(data: Record)
    requires NoNewline(Get(data.fields, "type", "Unknown")) && NoNewline(Get(data.fields, "id", ""))
    requires SingleLineProperties(data.properties)
    ensures NewlineCount(EntityText(data)) == 1 + |data.properties|
  {
    var kind, id, colon := Get(data.fields, "type", "Unknown"), Get(data.fields, "id", ""), ": ";
    assert NoNewline(kind) && NoNewline(id) && NoNewline(colon);
    NoNewlineAppend(kind, colon);
    NoNewlineAppend(kind + colon, id);
    OneLine(kind + colon + id);
    PropertyBlockNewlines(data.properties);
    NewlineCountAppend(EntityHeader(data), PropertyBlock(data.properties));
  }

  /** A relationship's text starts with its header line and ends with a line break. */
  lemma RelationshipTextShape(data: Record)
    ensures RelationshipText(data)[..|RelationshipHeader(data)|] == RelationshipHeader(data)
    ensures |RelationshipText(data)| > 0 && RelationshipText(data)[|RelationshipText(data)| - 1] == '\n'
  {
    var h, b := RelationshipHeader(data), PropertyBlock(data.properties);
    assert RelationshipText(data) == h + b;
    assert (h + b)[..|h|] == h;
    if data.properties != [] {
      PropertyBlockEndsWithNewline(data.properties);
    }
    EndsWithNewline(h, b);
  }

  /** A relationship whose printed values hold no line break renders as exactly 1 + |properties| lines. */
  lemma RelationshipTextLines(data: Record)
    requires NoNewline(Get(data.fields, "source", "")) && NoNewline(Get(data.fields, "relation", ""))
    requires NoNewline(Get(data.fields, "target", ""))
    requires SingleLineProperties(data.properties)
    ensures NewlineCount(RelationshipText(data)) == 1 + |data.properties|
  {
    var source, relation, target := Get(data.fields, "source", ""), Get(data.fields, "relation", ""),
                                     Get(data.fields, "target", "");
    var lead, open, close := "Relationship: ", " --[", "]--> ";
    assert NoNewline(source) && NoNewline(relation) && NoNewline(target);
    assert NoNewline(lead) && NoNewline(open) && NoNewline(close);
    NoNewlineAppend(lead, source);
    NoNewlineAppend(lead + source, open);
    NoNewlineAppend(lead + source + open, relation);
    NoNewlineAppend(lead + source + open + relation, close);
    NoNewlineAppend(lead + source + open + relation + close, target);
    OneLine(lead + source + open + relation + close + target);
    PropertyBlockNewlines(data.properties);
    NewlineCountAppend(RelationshipHeader(data), PropertyBlock(data.properties));
  }

  /** The loop shared by both renderers: append one indented line per property, in order. */
  method AppendPropertyLines(text: string, props: seq<Property>) returns (out: string)
    ensures out == text + PropertyBlock(props)
  {
    out := text;
    var i := 0;
    while i < |props|
      invariant 0 <= i <= |props|
      invariant out == text + PropertyBlock(props[..i])
    {
      assert props[..i + 1] == props[..i] + [props[i]];
      PropertyBlockSnoc(props[..i], props[i]);
      out := out + PropertyLine(props[i]);
      i := i + 1;
    }
    assert props[..|props|] == props;
  }

  method FormatEntity(data: Record) returns (text: string)
    ensures text == EntityText(data)
  {
    text := Get(data.fields, "type", "Unknown") + ": " + Get(data.fields, "id", "") + "\n";
    text := AppendPropertyLines(text, data.properties);
  }

  method FormatRelationship(data: Record) returns (text: string)
    ensures text == RelationshipText(data)
  {
    text := "Relationship: " + Get(data.fields, "source", "") + " --[" + Get(data.fields, "relation", "")
      + "]--> " + Get(data.fields, "target", "") + "\n";
    text := AppendPropertyLines(text, data.properties);
  }

  // ---------------------------------------------------------------------------
  // Loading the knowledge base
  // ---------------------------------------------------------------------------

  const KbSource := "credit_card_kb"

  /** A record with a "type" is an entity, even if it also has a "source". */
  function Classify(data: Record): Kind {
    if "type" in data.fields then EntityKind
    else if "source" in data.fields then RelationshipKind
    else Skipped
  }

  /** The metadata of a knowledge-base document: its origin and the decoded line, dumped again as JSON. */
  function KbMetadata(dumped: string): map<string, string> {
    map["source" := KbSource, "data" := dumped]
  }

  /** The document made from one record, if the record is not skipped. */
  function KbDocument(data: Record, dumped: string): (r: seq<Document>)
    ensures |r| <= 1
    ensures r == [] <==> "type" !in data.fields && "source" !in data.fields
    ensures r != [] ==> r[0].metadata == KbMetadata(dumped)
  {
    var meta := KbMetadata(dumped);
    match Classify(data)
    case EntityKind => [Document(EntityText(data), meta)]
    case RelationshipKind => [Document(RelationshipText(data), meta)]
    case Skipped => []
  }

  /**
   * The documents loaded from the knowledge-base file: one per entity or
   * relationship record, in file order; the first `Malformed` line (one on
   * which the loop raises) ends the load, keeping what was loaded before it.
   */
  function KbDocuments(lines: seq<Line>): (docs: seq<Document>)
    ensures |docs| <= |lines|
  {
    if lines == [] then []
    else match lines[0]
      case Malformed => []
      case Parsed(data, dumped) => KbDocument(data, dumped) + KbDocuments(lines[1..])
  }

  /** The loop raises on no line of `lines`: every line is `Parsed`. */
  predicate AllParsed(lines: seq<Line>) {
    forall i :: 0 <= i < |lines| ==> lines[i].Parsed?
  }

  /** Loading lines on which the loop does not raise (`Parsed`), then more lines, is loading each part in turn. */
  lemma {:induction false} KbDocumentsAppend(a: seq<Line>, b: seq<Line>)
    requires AllParsed(a)
    ensures KbDocuments(a + b) == KbDocuments(a) + KbDocuments(b)
  {
    if a == [] {
      assert a + b == b;
    } else {
      assert (a + b)[0] == a[0];
      assert (a + b)[1..] == a[1..] + b;
      assert AllParsed(a[1..]) by {
        forall i | 0 <= i < |a[1..]| ensures a[1..][i].Parsed? {
          assert a[1..][i] == a[i + 1];
        }
      }
      KbDocumentsAppend(a[1..], b);
    }
  }

  /** Unfolding the load of a suffix of the file by its first line. */
  lemma KbDocumentsStep(lines: seq<Line>, i: nat)
    requires i < |lines|
    ensures lines[i].Malformed? ==> KbDocuments(lines[i..]) == []
    ensures lines[i].Parsed? ==>
              KbDocuments(lines[i..]) ==
              KbDocument(lines[i].data, lines[i].dumped) + KbDocuments(lines[i + 1..])
  {
    var rest := lines[i..];
    assert rest[0] == lines[i] && rest[1..] == lines[i + 1..];
  }

  /** A `Malformed` line (one on which the loop raises) ends the load: nothing after it is kept. */
  lemma KbStopsAtMalformed(a: seq<Line>, b: seq<Line>)
    requires AllParsed(a)
    ensures KbDocuments(a + [Malformed] + b) == KbDocuments(a)
  {
    KbDocumentsAppend(a, [Malformed] + b);
    assert a + [Malformed] + b == a + ([Malformed] + b);
  }

  /**
   * The body of the loading loop for one `Parsed` line's record: a record with a
   * "type" is rendered as an entity even if it also has a "source", one with
   * only a "source" as a relationship, and one with neither is skipped.
   */
  method RecordDocuments(data: Record, dumped: string) returns (docs: seq<Document>)
    ensures docs == [] <==> "type" !in data.fields && "source" !in data.fields
    ensures "type" in data.fields ==> docs == [Document(EntityText(data), KbMetadata(dumped))]
    ensures "type" !in data.fields && "source" in data.fields ==>
              docs == [Document(RelationshipText(data), KbMetadata(dumped))]
    ensures docs == KbDocument(data, dumped)
  {
    var text: string;
    if "type" in data.fields {
      text := FormatEntity(data);
    } else if "source" in data.fields {
      text := FormatRelationship(data);
    } else {
      return [];
    }
    docs := [Document(text, KbMetadata(dumped))];
  }

  /** Loading one more `Parsed` line appends that line's documents. */
  lemma KbDocumentsExtend(lines: seq<Line>, i: nat)
    requires i < |lines| && AllParsed(lines[..i]) && lines[i].Parsed?
    ensures AllParsed(lines[..i + 1])
    ensures KbDocuments(lines[..i + 1]) ==
            KbDocuments(lines[..i]) + KbDocument(lines[i].data, lines[i].dumped)
  {
    var before := lines[..i];
    assert lines[..i + 1] == before + [lines[i]];
    KbDocumentsAppend(before, [lines[i]]);
    assert [lines[i]][1..] == [];
  }

  /** Once the first i lines are `Parsed` and line i is `Malformed`, the load is that of the first i lines. */
  lemma KbDocumentsCut(lines: seq<Line>, i: nat)
    requires i < |lines| && AllParsed(lines[..i]) && lines[i].Malformed?
    ensures KbDocuments(lines) == KbDocuments(lines[..i])
  {
    KbDocumentsAppend(lines[..i], lines[i..]);
    KbDocumentsStep(lines, i);
    assert lines[..i] + lines[i..] == lines;
  }

  /** The knowledge-base loading loop. */
  method LoadCreditCardKb(lines: seq<Line>) returns (documents: seq<Document>)
    ensures documents == KbDocuments(lines)
  {
    documents := [];
    var i := 0;
    while i < |lines|
      invariant 0 <= i <= |lines|
      invariant AllParsed(lines[..i])
      invariant documents == KbDocuments(lines[..i])
    {
      if lines[i].Malformed? {
        KbDocumentsCut(lines, i);
        return;
      }
      var found := RecordDocuments(lines[i].data, lines[i].dumped);
      KbDocumentsExtend(lines, i);
      documents := documents + found;
      i := i + 1;
    }
    assert lines[..i] == lines;
  }

  // ---------------------------------------------------------------------------
  // Search results
  // ---------------------------------------------------------------------------

  function Min(a: int, b: int): int {
    if a <= b then a else b
  }

  /** Python indexing of a non-empty list, where -1 is the last element. */
  function PyIndex(docs: seq<Document>, pos: int): (d: Document)
    requires -|docs| <= pos < |docs|
    ensures d in docs
    ensures pos == -1 ==> d == docs[|docs| - 1]
  {
    if pos >= 0 then docs[pos] else docs[|docs| + pos]
  }

  /**
   * The documents picked by the search labels, in label order, skipping every
   * label that is not below the number of documents.
   */
  function Picked(docs: seq<Document>, labels: seq<int>): (r: seq<Document>)
    requires forall i :: 0 <= i < |labels| ==> labels[i] >= -|docs|
    ensures |r| <= |labels|
    ensures forall d :: d in r ==> d in docs
  {
    if labels == [] then []
    else
      var l := labels[|labels| - 1];
      Picked(docs, labels[..|labels| - 1]) + (if l < |docs| then [PyIndex(docs, l)] else [])
  }

  /** Labels that are all valid positions pick exactly the documents at those positions. */
  lemma {:induction false} PickedInRange(docs: seq<Document>, labels: seq<int>)
    requires forall i :: 0 <= i < |labels| ==> 0 <= labels[i] < |docs|
    ensures |Picked(docs, labels)| == |labels|
    ensures forall i :: 0 <= i < |labels| ==> Picked(docs, labels)[i] == docs[labels[i]]
  {
    if labels != [] {
      var init := labels[..|labels| - 1];
      PickedInRange(docs, init);
      var r := Picked(docs, labels);
      assert r == Picked(docs, init) + [docs[labels[|labels| - 1]]];
      forall i | 0 <= i < |labels| ensures r[i] == docs[labels[i]] {
        if i < |init| {
          assert labels[i] == init[i];
        }
      }
    }
  }

  /** The retrieval system's state that the search reads. */
  class RagSystem {
    /** Whether a vector index has been built or loaded. */
    var hasIndex: bool
    /** The chunks the index was built from, in index order. */
    var documents: seq<Document>

    constructor ()
      ensures !hasIndex && documents == []
    {
      hasIndex := false;
      documents := [];
    }

    /**
     * Assemble the result of a similarity search. `labels` stands for the
     * neighbour positions the vector index returns for the query: there are
     * min(k, |documents|) of them and, as the index promises, none is below
     * -1 (its filler for a missing neighbour).
     */
    method SimilaritySearch(k: nat, labels: seq<int>) returns (results: seq<Document>)
      requires |labels| == Min(k, |documents|)
      requires forall i :: 0 <= i < |labels| ==> labels[i] >= -1
      ensures !hasIndex || documents == [] ==> results == []
      ensures hasIndex && documents != [] ==> results == Picked(documents, labels)
      ensures |results| <= k
      ensures forall d :: d in results ==> d in documents
    {
      if !hasIndex || |documents| == 0 {
        return [];
      }
      results := [];
      var i := 0;
      while i < |labels|
        invariant 0 <= i <= |labels|
        invariant results == Picked(documents, labels[..i])
      {
        assert labels[..i + 1][..i] == labels[..i];
        var idx := labels[i];
        if idx < |documents| {
          results := results + [PyIndex(documents, idx)];
        }
        i := i + 1;
      }
      assert labels[..|labels|] == labels;
    }
  }

  // ---------------------------------------------------------------------------
  // The answer context
  // ---------------------------------------------------------------------------

  /** Python's `sep.join(parts)`. */
  function Join(sep: string, parts: seq<string>): string {
    if parts == [] then ""
    else if |parts| == 1 then parts[0]
    else parts[0] + sep + Join(sep, parts[1..])
  }

  /** The block written for one retrieved document; the source defaults to "unknown". */
  function ContextChunk(doc: Document): (r: string)
    ensures "source" !in doc.metadata ==> r == "Source: unknown\n" + doc.pageContent
  {
    "Source: " + Get(doc.metadata, "source", "unknown") + "\n" + doc.pageContent
  }

  function Chunks(docs: seq<Document>): (r: seq<string>)
    ensures |r| == |docs|
    ensures forall i :: 0 <= i < |docs| ==> r[i] == ContextChunk(docs[i])
  {
    seq(|docs|, i requires 0 <= i < |docs| => ContextChunk(docs[i]))
  }

  /** The context string: the documents' blocks separated by blank lines, in document order. */
  function Context(docs: seq<Document>): string {
    Join("\n\n", Chunks(docs))
  }

  /** Joining a list is its first part, then, if there is more, the separator and the rest joined. */
  lemma JoinFront(sep: string, p: string, ps: seq<string>)
    ensures Join(sep, [p] + ps) == p + (if ps == [] then "" else sep + Join(sep, ps))
  {
    assert ([p] + ps)[1..] == ps;
  }

  /** Joining a list with one more part appends the separator and that part. */
  lemma {:induction false} JoinSnoc(sep: string, ps: seq<string>, q: string)
    ensures Join(sep, ps + [q]) == (if ps == [] then q else Join(sep, ps) + sep + q)
  {
    if ps == [] {
      assert ps + [q] == [q];
    } else {
      var all := ps + [q];
      assert all[0] == ps[0] && all[1..] == ps[1..] + [q];
      JoinSnoc(sep, ps[1..], q);
    }
  }

  /** The context opens with the first document's block, and the rest follow after a blank line. */
  lemma ContextFront(d: Document, docs: seq<Document>)
    ensures Context([d] + docs) == ContextChunk(d) + (if docs == [] then "" else "\n\n" + Context(docs))
  {
    assert Chunks([d] + docs) == [ContextChunk(d)] + Chunks(docs);
    JoinFront("\n\n", ContextChunk(d), Chunks(docs));
  }

  /** Retrieving one more document appends a blank line and its block to the context. */
  lemma ContextAppend(docs: seq<Document>, d: Document)
    ensures Context(docs + [d]) ==
            (if docs == [] then ContextChunk(d) else Context(docs) + "\n\n" + ContextChunk(d))
  {
    assert Chunks(docs + [d]) == Chunks(docs) + [ContextChunk(d)];
    JoinSnoc("\n\n", Chunks(docs), ContextChunk(d));
  }
}
