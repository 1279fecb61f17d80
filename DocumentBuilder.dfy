/**
 * toLuceneDocument: how an article is packed into the fields of a Lucene
 * document. The article accessors, the SpotManager cleaner and the
 * summarizer are external; the cleaner and the summarizer are parameters.
 */
module DocumentBuilder {

  datatype Link = Link(description: string, cleanId: string)

  /** An infobox template: its name and its description lines. */
  datatype Template = Template(name: string, description: seq<string>)

  /** The article accessors toLuceneDocument reads; articleType is String.valueOf(a.getType()). */
  datatype Article = Article(title: string, wid: int, wikiTitle: string, articleType: string,
                             lists: seq<seq<string>>, infobox: Template, highlights: seq<string>,
                             sections: seq<string>, links: seq<Link>, text: string)

  /** The field names of the index schema. */
  datatype FieldName =
    | TitleField | WikiIdField | WikiTitleField | TypeField | ListsField | InfoboxField
    | EmphField | SectionsField | DescField | LinkField | ContentField | SummaryField

  /** The name Lucene stores for each field. */
  function LuceneName(n: FieldName): string {
    match n
    case TitleField => "title"
    case WikiIdField => "wiki-id"
    case WikiTitleField => "wiki-title"
    case TypeField => "type"
    case ListsField => "lists"
    case InfoboxField => "infobox"
    case EmphField => "emph"
    case SectionsField => "sections"
    case DescField => "desc"
    case LinkField => "link"
    case ContentField => "content"
    case SummaryField => "summary"
  }

  /**
   * The Lucene field classes used, each with its Store flag. TermVectorField(true)
   * is STORE_TERM_VECTORS and TermVectorField(false) is STORE_TERM_VECTORS_NOT_STORED
   * (lines 109-124): indexed and tokenized, with term vectors.
   */
  datatype FieldType = TextField(stored: bool) | StringField(stored: bool) | IntField(stored: bool) | TermVectorField(stored: bool)

  datatype FieldValue = Text(text: string) | Number(number: int)

  datatype IndexField = IndexField(name: FieldName, value: FieldValue, fieldType: FieldType)

  /** A Lucene document: its fields in the order they were added. */
  type Document = seq<IndexField>

  /** String.replace(from, to) on characters. */
  function ReplaceChar(s: string, from: char, to: char): (r: string)
    ensures |r| == |s|
    ensures from != to ==> from !in r
    ensures forall i :: 0 <= i < |s| && s[i] != from ==> r[i] == s[i]
    ensures forall i :: 0 <= i < |s| && s[i] == from ==> r[i] == to
  {
    if s == [] then [] else [if s[0] == from then to else s[0]] + ReplaceChar(s[1..], from, to)
  }

  /** Every list's items, list after list. */
  function Flatten(lists: seq<seq<string>>): seq<string> {
    if lists == [] then [] else Flatten(lists[..|lists| - 1]) + lists[|lists| - 1]
  }

  /** The total number of items across the lists. */
  function ItemCount(lists: seq<seq<string>>): nat {
    if lists == [] then 0 else ItemCount(lists[..|lists| - 1]) + |lists[|lists| - 1]|
  }

  /** One field per string, in order, all with the same name and type. */
  function TextFields(name: FieldName, ft: FieldType, values: seq<string>): (d: Document)
    ensures |d| == |values|
  {
    if values == [] then []
    else TextFields(name, ft, values[..|values| - 1]) + [IndexField(name, Text(values[|values| - 1]), ft)]
  }

  /** The value stored for a link's description: the cleaned description. */
  function LinkDescription(l: Link, clean: string -> string): string {
    clean(l.description)
  }

  /** The value stored for a link's target: the clean id with '_' read as ' ', then cleaned. */
  function LinkTarget(l: Link, clean: string -> string): string {
    clean(ReplaceChar(l.cleanId, '_', ' '))
  }

  /** A desc field and a link field for each link, link after link. */
  function LinkFields(links: seq<Link>, clean: string -> string): (d: Document)
    ensures |d| == 2 * |links|
  {
    if links == [] then []
    else
      var l := links[|links| - 1];
      LinkFields(links[..|links| - 1], clean)
        + [IndexField(DescField, Text(LinkDescription(l, clean)), TermVectorField(true)),
           IndexField(LinkField, Text(LinkTarget(l, clean)), TermVectorField(true))]
  }

  /** The first four fields, which do not depend on any collaborator. */
  function HeaderFields(a: Article): Document {
    [IndexField(TitleField, Text(a.title), TextField(true))]
    + [IndexField(WikiIdField, Number(a.wid), IntField(true))]
    + [IndexField(WikiTitleField, Text(a.wikiTitle), StringField(true))]
    + [IndexField(TypeField, Text(a.articleType), StringField(true))]
  }

  /** The document toLuceneDocument builds for an article, written as a concatenation of its parts. */
  function PackedDocument(a: Article, clean: string -> string, summarize: Article -> string): (d: Document)
    ensures |d| == 7 + |Flatten(a.lists)| + |a.infobox.description| + |a.highlights| + |a.sections| + 2 * |a.links|
    ensures d[0] == IndexField(TitleField, Text(a.title), TextField(true))
    ensures d[|d| - 1] == IndexField(SummaryField, Text(summarize(a)), TermVectorField(true))
  {
    HeaderFields(a)
    + TextFields(ListsField, TextField(false), Flatten(a.lists))
    + [IndexField(InfoboxField, Text(a.infobox.name), TextField(true))]
    + TextFields(InfoboxField, TextField(true), a.infobox.description)
    + TextFields(EmphField, TermVectorField(true), a.highlights)
    + TextFields(SectionsField, TextField(false), a.sections)
    + LinkFields(a.links, clean)
    + [IndexField(ContentField, Text(clean(a.text)), TermVectorField(false))]
    + [IndexField(SummaryField, Text(summarize(a)), TermVectorField(true))]
  }

  /** Lines 368-402: add the fields one by one; each multi-valued part is added by a loop. */
  method ToLuceneDocument(a: Article, clean: string -> string, summarize: Article -> string) returns (d: Document)
    ensures d == PackedDocument(a, clean, summarize)
  {
    d := [IndexField(TitleField, Text(a.title), TextField(true))];
    d := d + [IndexField(WikiIdField, Number(a.wid), IntField(true))];
    d := d + [IndexField(WikiTitleField, Text(a.wikiTitle), StringField(true))];
    d := d + [IndexField(TypeField, Text(a.articleType), StringField(true))];
    d := AddListFields(d, a.lists);
    var t := a.infobox;
    d := d + [IndexField(InfoboxField, Text(t.name), TextField(true))];
    d := AddTextFields(d, InfoboxField, TextField(true), t.description);
    d := AddTextFields(d, EmphField, TermVectorField(true), a.highlights);
    d := AddTextFields(d, SectionsField, TextField(false), a.sections);
    d := AddLinkFields(d, a.links, clean);
    d := d + [IndexField(ContentField, Text(clean(a.text)), TermVectorField(false))];
    d := d + [IndexField(SummaryField, Text(summarize(a)), TermVectorField(true))];
  }

  /** The nested loop at lines 374-377: one unstored lists field per item of every list. */
  method AddListFields(d0: Document, lists: seq<seq<string>>) returns (d: Document)
    ensures d == d0 + TextFields(ListsField, TextField(false), Flatten(lists))
  {
    d := d0;
    for i := 0 to |lists|
      invariant d == d0 + TextFields(ListsField, TextField(false), Flatten(lists[..i]))
    {
      var l := lists[i];
      ghost var before := d;
      for j := 0 to |l|
        invariant d == before + TextFields(ListsField, TextField(false), l[..j])
      {
        assert l[..j + 1][..j] == l[..j];
        d := d + [IndexField(ListsField, Text(l[j]), TextField(false))];
      }
      assert l[..|l|] == l;
      assert lists[..i + 1][..i] == lists[..i];
      assert Flatten(lists[..i + 1]) == Flatten(lists[..i]) + l;
      TextFieldsConcat(ListsField, TextField(false), Flatten(lists[..i]), l);
      assert d == d0 + TextFields(ListsField, TextField(false), Flatten(lists[..i]) + l);
    }
    assert lists[..|lists|] == lists;
  }

  /** The fields of a concatenation are the fields of each part, one after the other. */
  lemma {:induction false} TextFieldsConcat(name: FieldName, ft: FieldType, xs: seq<string>, ys: seq<string>)
    ensures TextFields(name, ft, xs + ys) == TextFields(name, ft, xs) + TextFields(name, ft, ys)
  {
    if ys == [] {
      assert xs + ys == xs;
    } else {
      assert (xs + ys)[..|xs + ys| - 1] == xs + ys[..|ys| - 1];
      TextFieldsConcat(name, ft, xs, ys[..|ys| - 1]);
    }
  }

  /** The loops at lines 380-382, 383-385 and 386-388: one field per string, in order. */
  method AddTextFields(d0: Document, name: FieldName, ft: FieldType, values: seq<string>) returns (d: Document)
    ensures d == d0 + TextFields(name, ft, values)
  {
    d := d0;
    for i := 0 to |values|
      invariant d == d0 + TextFields(name, ft, values[..i])
    {
      assert values[..i + 1][..i] == values[..i];
      d := d + [IndexField(name, Text(values[i]), ft)];
    }
    assert values[..|values|] == values;
  }

  /** The loop at lines 390-396: a desc field and then a link field per link. */
  method AddLinkFields(d0: Document, links: seq<Link>, clean: string -> string) returns (d: Document)
    ensures d == d0 + LinkFields(links, clean)
  {
    d := d0;
    for i := 0 to |links|
      invariant d == d0 + LinkFields(links[..i], clean)
    {
      var e := links[i];
      assert links[..i + 1][..i] == links[..i];
      d := d + [IndexField(DescField, Text(clean(e.description)), TermVectorField(true))];
      d := d + [IndexField(LinkField, Text(clean(ReplaceChar(e.cleanId, '_', ' '))), TermVectorField(true))];
    }
    assert links[..|links|] == links;
  }

  /** The values of the fields with a given name, in the order they were added. */
  function Named(d: Document, n: FieldName): seq<FieldValue> {
    if d == [] then []
    else Named(d[..|d| - 1], n) + (if d[|d| - 1].name == n then [d[|d| - 1].value] else [])
  }

  /** Strings as text values. */
  function AsText(values: seq<string>): seq<FieldValue> {
    if values == [] then [] else AsText(values[..|values| - 1]) + [Text(values[|values| - 1])]
  }

  /** The cleaned descriptions of the links, in link order. */
  function LinkDescriptions(links: seq<Link>, clean: string -> string): seq<string> {
    if links == [] then []
    else LinkDescriptions(links[..|links| - 1], clean) + [LinkDescription(links[|links| - 1], clean)]
  }

  /** The cleaned targets of the links, in link order. */
  function LinkTargets(links: seq<Link>, clean: string -> string): seq<string> {
    if links == [] then []
    else LinkTargets(links[..|links| - 1], clean) + [LinkTarget(links[|links| - 1], clean)]
  }

  lemma {:induction false} NamedConcat(d1: Document, d2: Document, n: FieldName)
    ensures Named(d1 + d2, n) == Named(d1, n) + Named(d2, n)
  {
    if d2 != [] {
      var init := d2[..|d2| - 1];
      assert (d1 + d2)[..|d1 + d2| - 1] == d1 + init;
      NamedConcat(d1, init, n);
    } else {
      assert d1 + d2 == d1;
    }
  }

  /** The values a part contributes: all of them when it has the name asked for, none otherwise. */
  function Part(named: bool, values: seq<FieldValue>): seq<FieldValue> {
    if named then values else []
  }

  lemma NamedOne(f: IndexField, n: FieldName)
    ensures Named([f], n) == Part(f.name == n, [f.value])
  {
    assert [f][..0] == [];
  }

  lemma {:induction false} NamedTextFields(name: FieldName, ft: FieldType, values: seq<string>, n: FieldName)
    ensures Named(TextFields(name, ft, values), n) == Part(n == name, AsText(values))
  {
    if values != [] {
      var init := values[..|values| - 1];
      var f := IndexField(name, Text(values[|values| - 1]), ft);
      NamedTextFields(name, ft, init, n);
      NamedConcat(TextFields(name, ft, init), [f], n);
      NamedOne(f, n);
    }
  }

  lemma AsTextSnoc(values: seq<string>, v: string)
    ensures AsText(values + [v]) == AsText(values) + [Text(v)]
  {
    assert (values + [v])[..|values|] == values;
  }

  /** Two parts for different names, followed by two more for the same names, merge name by name. */
  lemma PartsMerge(isFirst: bool, isSecond: bool, x: seq<FieldValue>, y: seq<FieldValue>,
                   u: seq<FieldValue>, v: seq<FieldValue>)
    requires !(isFirst && isSecond)
    ensures Part(isFirst, x) + Part(isSecond, y) + (Part(isFirst, u) + Part(isSecond, v))
         == Part(isFirst, x + u) + Part(isSecond, y + v)
  {
    if isFirst {
      assert Part(isFirst, x) + Part(isSecond, y) + (Part(isFirst, u) + Part(isSecond, v)) == x + u;
    } else if isSecond {
      assert Part(isFirst, x) + Part(isSecond, y) + (Part(isFirst, u) + Part(isSecond, v)) == y + v;
    }
  }

  /** The desc and link fields one link adds. */
  lemma NamedLinkPair(l: Link, clean: string -> string, n: FieldName)
    ensures Named(LinkFields([l], clean), n) ==
              Part(n == DescField, [Text(LinkDescription(l, clean))])
              + Part(n == LinkField, [Text(LinkTarget(l, clean))])
  {
    var fd := IndexField(DescField, Text(LinkDescription(l, clean)), TermVectorField(true));
    var fl := IndexField(LinkField, Text(LinkTarget(l, clean)), TermVectorField(true));
    assert [l][..0] == [];
    assert LinkFields([l], clean) == [] + [fd, fl];
    assert [] + [fd, fl] == [fd] + [fl];
    NamedConcat([fd], [fl], n);
    NamedOne(fd, n);
    NamedOne(fl, n);
  }

  lemma {:induction false} NamedLinkFields(links: seq<Link>, clean: string -> string, n: FieldName)
    ensures Named(LinkFields(links, clean), n) ==
              Part(n == DescField, AsText(LinkDescriptions(links, clean)))
              + Part(n == LinkField, AsText(LinkTargets(links, clean)))
  {
    if links != [] {
      var init := links[..|links| - 1];
      var l := links[|links| - 1];
      assert LinkFields(links, clean) == LinkFields(init, clean) + LinkFields([l], clean) by {
        assert [l][..0] == [];
      }
      NamedLinkFields(init, clean, n);
      NamedConcat(LinkFields(init, clean), LinkFields([l], clean), n);
      NamedLinkPair(l, clean, n);
      AsTextSnoc(LinkDescriptions(init, clean), LinkDescription(l, clean));
      AsTextSnoc(LinkTargets(init, clean), LinkTarget(l, clean));
      PartsMerge(n == DescField, n == LinkField,
                 AsText(LinkDescriptions(init, clean)), AsText(LinkTargets(init, clean)),
                 [Text(LinkDescription(l, clean))], [Text(LinkTarget(l, clean))]);
    }
  }

  /** The values of one name in the packed document, part by part. */
  lemma PackedNamed(a: Article, clean: string -> string, summarize: Article -> string, n: FieldName)
    ensures Named(PackedDocument(a, clean, summarize), n) ==
      Part(n == TitleField, [Text(a.title)])
      + Part(n == WikiIdField, [Number(a.wid)])
      + Part(n == WikiTitleField, [Text(a.wikiTitle)])
      + Part(n == TypeField, [Text(a.articleType)])
      + Part(n == ListsField, AsText(Flatten(a.lists)))
      + Part(n == InfoboxField, [Text(a.infobox.name)])
      + Part(n == InfoboxField, AsText(a.infobox.description))
      + Part(n == EmphField, AsText(a.highlights))
      + Part(n == SectionsField, AsText(a.sections))
      + (Part(n == DescField, AsText(LinkDescriptions(a.links, clean)))
         + Part(n == LinkField, AsText(LinkTargets(a.links, clean))))
      + Part(n == ContentField, [Text(clean(a.text))])
      + Part(n == SummaryField, [Text(summarize(a))])
  {
    var h1 := [IndexField(TitleField, Text(a.title), TextField(true))];
    var h2 := [IndexField(WikiIdField, Number(a.wid), IntField(true))];
    var h3 := [IndexField(WikiTitleField, Text(a.wikiTitle), StringField(true))];
    var h4 := [IndexField(TypeField, Text(a.articleType), StringField(true))];
    var lists := TextFields(ListsField, TextField(false), Flatten(a.lists));
    var name := [IndexField(InfoboxField, Text(a.infobox.name), TextField(true))];
    var desc := TextFields(InfoboxField, TextField(true), a.infobox.description);
    var emph := TextFields(EmphField, TermVectorField(true), a.highlights);
    var sections := TextFields(SectionsField, TextField(false), a.sections);
    var links := LinkFields(a.links, clean);
    var content := [IndexField(ContentField, Text(clean(a.text)), TermVectorField(false))];
    var summary := [IndexField(SummaryField, Text(summarize(a)), TermVectorField(true))];
    NamedConcat(h1, h2, n);
    NamedConcat(h1 + h2, h3, n);
    NamedConcat(h1 + h2 + h3, h4, n);
    var p := HeaderFields(a);
    NamedConcat(p, lists, n);
    NamedConcat(p + lists, name, n);
    NamedConcat(p + lists + name, desc, n);
    NamedConcat(p + lists + name + desc, emph, n);
    NamedConcat(p + lists + name + desc + emph, sections, n);
    NamedConcat(p + lists + name + desc + emph + sections, links, n);
    NamedConcat(p + lists + name + desc + emph + sections + links, content, n);
    NamedConcat(p + lists + name + desc + emph + sections + links + content, summary, n);
    NamedOne(h1[0], n);
    NamedOne(h2[0], n);
    NamedOne(h3[0], n);
    NamedOne(h4[0], n);
    NamedOne(name[0], n);
    NamedOne(content[0], n);
    NamedOne(summary[0], n);
    NamedTextFields(ListsField, TextField(false), Flatten(a.lists), n);
    NamedTextFields(InfoboxField, TextField(true), a.infobox.description, n);
    NamedTextFields(EmphField, TermVectorField(true), a.highlights, n);
    NamedTextFields(SectionsField, TextField(false), a.sections, n);
    NamedLinkFields(a.links, clean, n);
  }

  /** Field names are told apart by the strings Lucene stores. */
  lemma LuceneNamesDistinct(n1: FieldName, n2: FieldName)
    ensures LuceneName(n1) == LuceneName(n2) ==> n1 == n2
  {
  }

  lemma {:induction false} AsTextAt(values: seq<string>)
    ensures |AsText(values)| == |values|
    ensures forall i :: 0 <= i < |values| ==> AsText(values)[i] == Text(values[i])
  {
    if values != [] {
      AsTextAt(values[..|values| - 1]);
    }
  }

  lemma {:induction false} FlattenLength(lists: seq<seq<string>>)
    ensures |Flatten(lists)| == ItemCount(lists)
  {
    if lists != [] {
      FlattenLength(lists[..|lists| - 1]);
    }
  }

  /** Description i is the cleaned description of link i. */
  lemma {:induction false} LinkDescriptionsAt(links: seq<Link>, clean: string -> string)
    ensures |LinkDescriptions(links, clean)| == |links|
    ensures forall i :: 0 <= i < |links| ==> LinkDescriptions(links, clean)[i] == clean(links[i].description)
  {
    if links != [] {
      var init := links[..|links| - 1];
      LinkDescriptionsAt(init, clean);
      assert forall i :: 0 <= i < |init| ==> links[i] == init[i];
    }
  }

  /** Target i is the cleaned, underscore-free clean id of link i. */
  lemma {:induction false} LinkTargetsAt(links: seq<Link>, clean: string -> string)
    ensures |LinkTargets(links, clean)| == |links|
    ensures forall i :: 0 <= i < |links| ==>
              LinkTargets(links, clean)[i] == clean(ReplaceChar(links[i].cleanId, '_', ' '))
  {
    if links != [] {
      var init := links[..|links| - 1];
      LinkTargetsAt(init, clean);
      assert forall i :: 0 <= i < |init| ==> links[i] == init[i];
    }
  }

  /** The first four fields hold the title, the wiki-id, the wiki-title and the type, once each. */
  lemma PackedHeaderFields(a: Article, clean: string -> string, summarize: Article -> string)
    ensures var d := PackedDocument(a, clean, summarize);
      && Named(d, TitleField) == [Text(a.title)]
      && Named(d, WikiIdField) == [Number(a.wid)]
      && Named(d, WikiTitleField) == [Text(a.wikiTitle)]
      && Named(d, TypeField) == [Text(a.articleType)]
  {
    PackedNamed(a, clean, summarize, TitleField);
    PackedNamed(a, clean, summarize, WikiIdField);
    PackedNamed(a, clean, summarize, WikiTitleField);
    PackedNamed(a, clean, summarize, TypeField);
  }

  /** The lists field holds every item of every list, in order, duplicates kept. */
  lemma PackedListValues(a: Article, clean: string -> string, summarize: Article -> string)
    ensures Named(PackedDocument(a, clean, summarize), ListsField) == AsText(Flatten(a.lists))
  {
    PackedNamed(a, clean, summarize, ListsField);
  }

  /** The infobox field holds the template name, then each description line, in order. */
  lemma PackedInfoboxValues(a: Article, clean: string -> string, summarize: Article -> string)
    ensures Named(PackedDocument(a, clean, summarize), InfoboxField)
         == [Text(a.infobox.name)] + AsText(a.infobox.description)
  {
    PackedNamed(a, clean, summarize, InfoboxField);
  }

  /** The emph field holds every highlight and the sections field every section header, in order. */
  lemma PackedEmphAndSectionFields(a: Article, clean: string -> string, summarize: Article -> string)
    ensures var d := PackedDocument(a, clean, summarize);
      && Named(d, EmphField) == AsText(a.highlights)
      && Named(d, SectionsField) == AsText(a.sections)
  {
    PackedNamed(a, clean, summarize, EmphField);
    PackedNamed(a, clean, summarize, SectionsField);
  }

  /** The desc field holds the cleaned description and the link field the cleaned target of every link, in link order. */
  lemma PackedLinkValues(a: Article, clean: string -> string, summarize: Article -> string)
    ensures var d := PackedDocument(a, clean, summarize);
      && Named(d, DescField) == AsText(LinkDescriptions(a.links, clean))
      && Named(d, LinkField) == AsText(LinkTargets(a.links, clean))
  {
    PackedNamed(a, clean, summarize, DescField);
    PackedNamed(a, clean, summarize, LinkField);
  }

  /** The content field holds the cleaned body text and the summary field the summary, once each. */
  lemma PackedTextFields(a: Article, clean: string -> string, summarize: Article -> string)
    ensures var d := PackedDocument(a, clean, summarize);
      && Named(d, ContentField) == [Text(clean(a.text))]
      && Named(d, SummaryField) == [Text(summarize(a))]
  {
    PackedNamed(a, clean, summarize, ContentField);
    PackedNamed(a, clean, summarize, SummaryField);
  }

  /**
   * The entry counts of a packed document: one lists entry per item, the
   * infobox name and one entry per description line, one emph entry per
   * highlight, one sections entry per section, one desc and one link entry
   * per link, and exactly one of each single-valued field.
   */
  lemma PackedFieldCounts(a: Article, clean: string -> string, summarize: Article -> string)
    ensures var d := PackedDocument(a, clean, summarize);
      && |Named(d, ListsField)| == ItemCount(a.lists)
      && |Named(d, InfoboxField)| == 1 + |a.infobox.description|
      && |Named(d, EmphField)| == |a.highlights|
      && |Named(d, SectionsField)| == |a.sections|
      && |Named(d, DescField)| == |a.links|
      && |Named(d, LinkField)| == |a.links|
      && |Named(d, TitleField)| == 1 && |Named(d, WikiIdField)| == 1
      && |Named(d, WikiTitleField)| == 1 && |Named(d, TypeField)| == 1
      && |Named(d, ContentField)| == 1 && |Named(d, SummaryField)| == 1
  {
    PackedHeaderFields(a, clean, summarize);
    PackedListValues(a, clean, summarize);
    PackedInfoboxValues(a, clean, summarize);
    PackedEmphAndSectionFields(a, clean, summarize);
    PackedLinkValues(a, clean, summarize);
    PackedTextFields(a, clean, summarize);
    AsTextAt(Flatten(a.lists));
    FlattenLength(a.lists);
    AsTextAt(a.infobox.description);
    AsTextAt(a.highlights);
    AsTextAt(a.sections);
    LinkDescriptionsAt(a.links, clean);
    LinkTargetsAt(a.links, clean);
    AsTextAt(LinkDescriptions(a.links, clean));
    AsTextAt(LinkTargets(a.links, clean));
  }

  /** The desc and link entries follow the links in order: entry i comes from link i. */
  lemma PackedLinksInOrder(a: Article, clean: string -> string, summarize: Article -> string, i: int)
    requires 0 <= i < |a.links|
    ensures var d := PackedDocument(a, clean, summarize);
      && |Named(d, DescField)| == |a.links| && |Named(d, LinkField)| == |a.links|
      && Named(d, DescField)[i] == Text(clean(a.links[i].description))
      && Named(d, LinkField)[i] == Text(clean(ReplaceChar(a.links[i].cleanId, '_', ' ')))
  {
    PackedLinkValues(a, clean, summarize);
    LinkDescriptionsAt(a.links, clean);
    LinkTargetsAt(a.links, clean);
    AsTextAt(LinkDescriptions(a.links, clean));
    AsTextAt(LinkTargets(a.links, clean));
  }
}
