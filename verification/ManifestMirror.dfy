/** hack/sync_manifests.py from the parsed documents on: edit and group them by kind, write each to its
    file if it changed, and sweep the crds directory of files this run did not generate. */
module ManifestMirror {
  import opened ManifestEdits
  import opened Options
  import opened Strings

  // The directories under bindata the script writes to.
  datatype Dir = Root | ClusterRoles | Crds

  datatype Path = Path(dir: Dir, file: string)

  type Files = map<Path, string>

  /** A document after the script's edits; `text` is its YAML. */
  datatype Doc = Doc(kind: string, name: string, versions: seq<Version>, text: string)

  /** How a manifest is rendered as YAML. */
  type Dump = Manifest -> string

  /** What the script makes of the parsed manifests; what is not an object with a kind is None. */
  function DocsOf(dump: Dump, manifests: seq<Option<Manifest>>): seq<Option<Doc>> {
    seq(|manifests|, i requires 0 <= i < |manifests| => DocOf(dump, manifests[i]))
  }

  function DocOf(dump: Dump, m: Option<Manifest>): Option<Doc> {
    if m.None? then None else Some(Doc(m.value.kind, m.value.name, m.value.versions, dump(Edited(m.value))))
  }

  datatype Write = Write(path: Path, content: string)

  const HEADER := "# autogenerated - Do not modify; see hack/sync_manifests.py\n---\n"

  const CRD := "crd"

  /** Which kinds the script processes, and the stem of their file names. */
  type FileMap = map<string, string>

  const FILE_MAP: FileMap := map[
    "CustomResourceDefinition" := CRD,
    "ClusterRole" := "clusterrole",
    "ClusterRoleBinding" := "clusterrolebinding",
    "APIService" := "apiservice",
    "ValidatingWebhookConfiguration" := "validatingwebhook",
    "MutatingWebhookConfiguration" := "mutatingwebhook",
    "Service" := "service",
    "Role" := "role",
    "RoleBinding" := "rolebinding",
    "ServiceAccount" := "serviceaccount",
    "Deployment" := "deployment",
    "Secret" := "secret"
  ]

  function CleanName(name: string, kind: string): string {
    var short :=
      if kind in ["RoleBinding", "ClusterRoleBinding", "Role", "Service", "ClusterRole"] then RemoveAll(name, "kueue-")
      else name;
    if kind in ["RoleBinding", "ClusterRoleBinding"] then RemoveAll(RemoveAll(short, "-rolebinding"), "-binding")
    else if kind == "Role" then RemoveAll(short, "-role")
    else short
  }

  /** The first version marked as the storage one; an empty name counts as none. */
  function StorageVersion(versions: seq<Version>): string {
    if versions == [] then ""
    else if versions[0].storage then versions[0].name
    else StorageVersion(versions[1..])
  }

  function PathOf(base: string, d: Doc): (p: Path)
    ensures p.dir == Crds <==> base == CRD
  {
    var name := CleanName(d.name, d.kind);
    if base == CRD then
      var v := StorageVersion(d.versions);
      Path(Crds, "crd-" + name + (if v != "" then "-" + v else "") + ".yaml")
    else if base == "clusterrole" then Path(ClusterRoles, "clusterrole-" + name + ".yaml")
    else if base == "service" then Path(Root, name + ".yaml")
    else if base in ["apiservice", "rolebinding", "clusterrolebinding", "role"] then
      Path(Root, base + "-" + name + ".yaml")
    else Path(Root, base + ".yaml")
  }

  function WriteOf(base: string, d: Doc): Write {
    Write(PathOf(base, d), HEADER + d.text)
  }

  /** How a document filed under a stem is written. */
  type Render = (string, Doc) -> Write

  ghost predicate NeverEmpty(render: Render) {
    forall base, d :: render(base, d).content != ""
  }

  predicate IsYaml(p: Path) {
    HasSuffix(p.file, ".yaml")
  }

  // ---- Grouping ----

  /** A Python dict of lists: keys keep the order in which they were first seen. */
  datatype Manifests = Manifests(order: seq<string>, docs: map<string, seq<Doc>>)

  function Add(m: Manifests, base: string, d: Doc): Manifests {
    if base in m.docs then m.(docs := m.docs[base := m.docs[base] + [d]])
    else Manifests(m.order + [base], m.docs[base := [d]])
  }

  /** The stem a document is filed under, if the script processes it at all. A document that is not an
      object or has no kind is None. */
  function BaseOf(fm: FileMap, d: Option<Doc>): Option<string> {
    if d.Some? && d.value.kind in fm then Some(fm[d.value.kind]) else None
  }

  function Grouped(fm: FileMap, docs: seq<Option<Doc>>): Manifests {
    if docs == [] then Manifests([], map[])
    else
      var m, d := Grouped(fm, docs[..|docs| - 1]), docs[|docs| - 1];
      if BaseOf(fm, d).Some? then Add(m, BaseOf(fm, d).value, d.value) else m
  }

  /** The documents of one stem, in order. */
  function OfBase(fm: FileMap, docs: seq<Option<Doc>>, base: string): seq<Doc> {
    if docs == [] then []
    else
      var d := docs[|docs| - 1];
      OfBase(fm, docs[..|docs| - 1], base) + if BaseOf(fm, d) == Some(base) then [d.value] else []
  }

  ghost predicate Ordered(m: Manifests) {
    && (forall b :: b in m.order <==> b in m.docs)
    && (forall i, j :: 0 <= i < j < |m.order| ==> m.order[i] != m.order[j])
  }

  lemma AddKeepsOrdered(m: Manifests, base: string, d: Doc)
    requires Ordered(m)
    ensures Ordered(Add(m, base, d))
  {
    if base !in m.docs {
      var order := m.order + [base];
      forall i, j | 0 <= i < j < |order| ensures order[i] != order[j] {
        assert order[i] in m.order;
      }
      assert forall b :: b in order <==> b in m.order || b == base;
    }
  }

  lemma {:induction false} GroupedIsByBase(fm: FileMap, docs: seq<Option<Doc>>)
    ensures Ordered(Grouped(fm, docs))
    ensures forall b :: OfBase(fm, docs, b) == if b in Grouped(fm, docs).docs then Grouped(fm, docs).docs[b] else []
  {
    if docs != [] {
      var n := |docs| - 1;
      GroupedIsByBase(fm, docs[..n]);
      if BaseOf(fm, docs[n]).Some? {
        AddKeepsOrdered(Grouped(fm, docs[..n]), BaseOf(fm, docs[n]).value, docs[n].value);
      }
    }
  }

  // ---- The writes, in order ----

  function WritesOf(render: Render, base: string, docs: seq<Doc>): seq<Write> {
    seq(|docs|, i requires 0 <= i < |docs| => render(base, docs[i]))
  }

  /** The first pass writes every group but the CRDs; the second splits cluster roles and CRDs. */
  predicate InFirst(base: string) {
    base != CRD
  }

  predicate InSecond(base: string) {
    base == "clusterrole" || base == CRD
  }

  /** The documents of one group, none if there is no such group. */
  function GroupOf(docs: map<string, seq<Doc>>, b: string): seq<Doc> {
    if b in docs then docs[b] else []
  }

  /** One pass over the groups `pass` lets through. */
  function PassWrites(render: Render, docs: map<string, seq<Doc>>, order: seq<string>, pass: string -> bool): seq<Write>
  {
    if order == [] then []
    else
      var b := order[|order| - 1];
      PassWrites(render, docs, order[..|order| - 1], pass) + if pass(b) then WritesOf(render, b, GroupOf(docs, b)) else []
  }

  lemma PassStep(render: Render, docs: map<string, seq<Doc>>, order: seq<string>, i: nat, pass: string -> bool)
    requires i < |order|
    ensures var before := PassWrites(render, docs, order[..i], pass);
      PassWrites(render, docs, order[..i + 1], pass)
      == if pass(order[i]) then before + WritesOf(render, order[i], GroupOf(docs, order[i])) else before
  {
    assert order[..i + 1][..i] == order[..i];
  }

  function GroupWrites(render: Render, m: Manifests): seq<Write>
    requires Ordered(m)
  {
    PassWrites(render, m.docs, m.order, InFirst) + PassWrites(render, m.docs, m.order, InSecond)
  }

  lemma HeaderIsWritten()
    ensures NeverEmpty(WriteOf)
  {
    forall base, d: Doc ensures WriteOf(base, d).content != "" {
      assert |HEADER| > 0;
    }
  }

  function Writes(fm: FileMap, docs: seq<Option<Doc>>): seq<Write> {
    GroupedIsByBase(fm, docs);
    GroupWrites(WriteOf, Grouped(fm, docs))
  }

  lemma TwoPasses(fm: FileMap, docs: seq<Option<Doc>>)
    ensures var m := Grouped(fm, docs);
      && (forall b :: b in m.order ==> b in m.docs)
      && Writes(fm, docs) == PassWrites(WriteOf, m.docs, m.order, InFirst) + PassWrites(WriteOf, m.docs, m.order, InSecond)
  {
    hide PassWrites, WriteOf;
    GroupedIsByBase(fm, docs);
  }

  // ---- Their effect ----

  function WriteAll(files: Files, ws: seq<Write>): Files {
    if ws == [] then files else WriteAll(files, ws[..|ws| - 1])[ws[|ws| - 1].path := ws[|ws| - 1].content]
  }

  /** The paths that are actually rewritten, because their content differs. */
  function Rewritten(files: Files, ws: seq<Write>): seq<Path> {
    if ws == [] then []
    else
      var n := |ws| - 1;
      var before := WriteAll(files, ws[..n]);
      Rewritten(files, ws[..n]) +
      if (if ws[n].path in before then before[ws[n].path] else "") != ws[n].content then [ws[n].path] else []
  }

  function Paths(ws: seq<Write>): set<Path> {
    set w | w in ws :: w.path
  }

  /** The files the sweep removes. */
  function Orphans(files: Files, generated: set<Path>): set<Path> {
    set p | p in files && p.dir == Crds && IsYaml(p) && p !in generated
  }

  function Swept(written: Files, generated: set<Path>): Files {
    written - Orphans(written, generated)
  }

  function AfterScript(files: Files, fm: FileMap, docs: seq<Option<Doc>>): Files {
    var ws := Writes(fm, docs);
    Swept(WriteAll(files, ws), Paths(ws))
  }

  lemma Associate(a: seq<Write>, b: seq<Write>, c: seq<Write>)
    ensures a + b + c == a + (b + c)
  {
  }

  lemma WriteStep(files: Files, ws: seq<Write>, w: Write)
    ensures WriteAll(files, ws + [w]) == WriteAll(files, ws)[w.path := w.content]
    ensures Paths(ws + [w]) == Paths(ws) + {w.path}
    ensures var before := WriteAll(files, ws);
      Rewritten(files, ws + [w]) == Rewritten(files, ws) +
        if (if w.path in before then before[w.path] else "") != w.content then [w.path] else []
  {
    assert (ws + [w])[..|ws|] == ws;
  }

  class Script {
    var files: Files
    var generated: set<Path>
    var rewritten: seq<Path>
    var removed: set<Path>
    ghost var start: Files
    ghost var done: seq<Write>

    constructor (files: Files)
      ensures Valid() && start == files && done == [] && removed == {}
    {
      this.files, generated, rewritten, removed, start, done := files, {}, [], {}, files, [];
    }

    /** The fields are what the writes done so far make of the files at the start. */
    ghost predicate Valid()
      reads this
    {
      files == WriteAll(start, done) && generated == Paths(done) && rewritten == Rewritten(start, done)
    }

    method WriteYamlIfChanged(w: Write)
      requires Valid() && w.content != ""
      modifies this
      ensures Valid() && start == old(start) && removed == old(removed)
      ensures done == old(done) + [w]
    {
      WriteStep(start, done, w);
      hide WriteAll, Rewritten, Paths;
      generated := generated + {w.path};
      var existing := if w.path in files then files[w.path] else "";
      if w.content != existing {
        rewritten := rewritten + [w.path];
        files := files[w.path := w.content];
      } else {
        assert files[w.path := w.content] == files;
      }
      done := done + [w];
    }

    method WriteGroup(render: Render, base: string, docs: seq<Doc>)
      requires Valid() && NeverEmpty(render)
      modifies this
      ensures Valid() && start == old(start) && removed == old(removed)
      ensures done == old(done) + WritesOf(render, base, docs)
    {
      ghost var ws := WritesOf(render, base, docs);
      assert forall k :: 0 <= k < |docs| ==> ws[k] == render(base, docs[k]) && ws[k].content != "";
      hide *;
      for k := 0 to |docs|
        invariant Valid() && start == old(start) && removed == old(removed)
        invariant done == old(done) + ws[..k]
      {
        var w := render(base, docs[k]);
        assert w == ws[k] && ws[..k + 1] == ws[..k] + [w];
        WriteYamlIfChanged(w);
      }
      assert ws[..|docs|] == ws;
    }

    method WritePass(render: Render, m: Manifests, pass: string -> bool)
      requires Valid() && NeverEmpty(render)
      modifies this
      ensures Valid() && start == old(start) && removed == old(removed)
      ensures done == old(done) + PassWrites(render, m.docs, m.order, pass)
    {
      ghost var was, sofar := done, PassWrites(render, m.docs, m.order[..0], pass);
      assert done == was + sofar;
      hide *;
      for i := 0 to |m.order|
        invariant Valid() && start == old(start) && removed == old(removed)
        invariant sofar == PassWrites(render, m.docs, m.order[..i], pass) && done == was + sofar
      {
        var b := m.order[i];
        PassStep(render, m.docs, m.order, i, pass);
        if pass(b) {
          WriteGroup(render, b, GroupOf(m.docs, b));
          Associate(was, sofar, WritesOf(render, b, GroupOf(m.docs, b)));
          sofar := sofar + WritesOf(render, b, GroupOf(m.docs, b));
        }
      }
      assert m.order[..|m.order|] == m.order;
    }

    method SweepOrphans()
      requires Valid() && removed == {}
      modifies this`files, this`removed
      ensures files == Swept(old(files), generated) && removed == Orphans(old(files), generated)
    {
      hide WriteAll, Rewritten, Paths, HasSuffix;
      var todo := files.Keys;
      while todo != {}
        invariant todo <= files.Keys && files == old(files)
        invariant removed == Orphans(files, generated) - todo
        decreases |todo|
      {
        var p :| p in todo;
        todo := todo - {p};
        if p.dir == Crds && IsYaml(p) && p !in generated {
          removed := removed + {p};
        }
      }
      files := files - removed;
    }

    method SyncManifests(fm: FileMap, manifests: seq<Option<Manifest>>, dump: Dump)
      requires Valid() && done == [] && removed == {}
      modifies this
      ensures var docs := DocsOf(dump, manifests);
        && files == AfterScript(old(files), fm, docs)
        && rewritten == Rewritten(old(files), Writes(fm, docs))
        && removed == Orphans(WriteAll(old(files), Writes(fm, docs)), Paths(Writes(fm, docs)))
    {
      WriteDocuments(fm, manifests, dump);
      SweepOrphans();
    }

    method WriteDocuments(fm: FileMap, manifests: seq<Option<Manifest>>, dump: Dump)
      requires Valid() && done == [] && removed == {}
      modifies this
      ensures Valid() && start == old(files) && removed == {} && done == Writes(fm, DocsOf(dump, manifests))
    {
      assert start == files;
      hide *;
      ghost var docs := DocsOf(dump, manifests);
      var m := GroupDocuments(fm, manifests, dump);
      HeaderIsWritten();
      TwoPasses(fm, docs);
      WritePass(WriteOf, m, InFirst);
      ghost var first := done;
      WritePass(WriteOf, m, InSecond);
      assert first == PassWrites(WriteOf, m.docs, m.order, InFirst);
    }
  }

  method GroupDocuments(fm: FileMap, manifests: seq<Option<Manifest>>, dump: Dump) returns (m: Manifests)
    ensures m == Grouped(fm, DocsOf(dump, manifests)) && Ordered(m)
  {
    ghost var docs := DocsOf(dump, manifests);
    m := Manifests([], map[]);
    for i := 0 to |manifests|
      invariant m == Grouped(fm, docs[..i]) && Ordered(m)
    {
      assert docs[..i + 1][..i] == docs[..i];
      if manifests[i].Some? && manifests[i].value.kind in fm {
        var doc := new Document(manifests[i].value);
        doc.Edit();
        EditKeepsTheFile(manifests[i].value);
        var d := Doc(doc.it.kind, doc.it.name, doc.it.versions, dump(doc.it));
        hide Edited;
        var base := fm[d.kind];
        AddKeepsOrdered(m, base, d);
        m := Add(m, base, d);
      }
    }
    assert docs[..|docs|] == docs;
  }

  // ---- What a list of writes leaves behind ----

  /** The last write to p in ws is the i-th. */
  predicate LastAt(ws: seq<Write>, p: Path, i: nat) {
    i < |ws| && ws[i].path == p && forall j :: i < j < |ws| ==> ws[j].path != p
  }

  lemma {:induction false} WriteAllAt(files: Files, ws: seq<Write>, p: Path) returns (i: nat)
    ensures p in Paths(ws) ==> LastAt(ws, p, i) && p in WriteAll(files, ws) && WriteAll(files, ws)[p] == ws[i].content
    ensures p !in Paths(ws) ==> (p in WriteAll(files, ws) <==> p in files)
    ensures p !in Paths(ws) && p in files ==> WriteAll(files, ws)[p] == files[p]
  {
    i := 0;
    if ws != [] {
      var before, w := ws[..|ws| - 1], ws[|ws| - 1];
      assert ws == before + [w];
      WriteStep(files, before, w);
      hide WriteAll, Paths;
      var k := WriteAllAt(files, before, p);
      i := if w.path == p then |before| else k;
    } else {
      assert Paths(ws) == {};
    }
  }

  lemma {:induction false} NoWritesIff(files: Files, ws: seq<Write>)
    requires forall w :: w in ws ==> w.content != ""
    ensures Rewritten(files, ws) == [] <==> forall w :: w in ws ==> w.path in files && files[w.path] == w.content
    ensures Rewritten(files, ws) == [] ==> WriteAll(files, ws) == files
  {
    if ws != [] {
      var before, last := ws[..|ws| - 1], ws[|ws| - 1];
      assert ws == before + [last];
      assert forall w :: w in ws <==> w in before || w == last;
      WriteStep(files, before, last);
      hide WriteAll, Rewritten;
      NoWritesIff(files, before);
      if last.path in files && files[last.path] == last.content {
        assert files[last.path := last.content] == files;
      }
    }
  }

  /** Writes to the same path agree. */
  ghost predicate Consistent(ws: seq<Write>) {
    forall v, w :: v in ws && w in ws && v.path == w.path ==> v.content == w.content
  }

  /** A second run over the same writes does nothing exactly when the writes to each path agree. */
  lemma SecondPassIff(files: Files, ws: seq<Write>)
    requires forall w :: w in ws ==> w.content != ""
    ensures var once := Swept(WriteAll(files, ws), Paths(ws));
      && (Rewritten(once, ws) == [] <==> Consistent(ws))
      && Orphans(WriteAll(once, ws), Paths(ws)) == {}
  {
    var all := WriteAll(files, ws);
    var once := Swept(all, Paths(ws));
    NoWritesIff(once, ws);
    forall w | w in ws ensures w.path in once && exists i: nat :: LastAt(ws, w.path, i) && once[w.path] == ws[i].content {
      var i := WriteAllAt(files, ws, w.path);
      assert w.path in Paths(ws);
      assert LastAt(ws, w.path, i);
    }
    if Consistent(ws) {
      forall w | w in ws ensures once[w.path] == w.content {
        var i: nat :| LastAt(ws, w.path, i) && once[w.path] == ws[i].content;
        assert ws[i] in ws;
      }
    }
    forall p | p in WriteAll(once, ws) && p !in Paths(ws) ensures p !in Orphans(WriteAll(once, ws), Paths(ws)) {
      var _ := WriteAllAt(once, ws, p);
    }
  }

  // ---- The writes of a run, document by document ----

  lemma {:induction false} OfBaseHas(fm: FileMap, docs: seq<Option<Doc>>, base: string)
    ensures forall d :: d in OfBase(fm, docs, base) <==> Some(d) in docs && BaseOf(fm, Some(d)) == Some(base)
  {
    if docs != [] {
      var n := |docs| - 1;
      OfBaseHas(fm, docs[..n], base);
      assert docs == docs[..n] + [docs[n]];
    }
  }

  lemma {:induction false} PassHas(render: Render, docs: map<string, seq<Doc>>, order: seq<string>, pass: string -> bool)
    requires forall b :: b in order ==> b in docs
    ensures forall w :: w in PassWrites(render, docs, order, pass) <==>
      exists b :: b in order && pass(b) && w in WritesOf(render, b, docs[b])
  {
    if order != [] {
      var n := |order| - 1;
      PassHas(render, docs, order[..n], pass);
      assert order == order[..n] + [order[n]];
    }
  }

  predicate Processed(fm: FileMap, docs: seq<Option<Doc>>, d: Doc) {
    Some(d) in docs && d.kind in fm
  }

  lemma WritesAreAsked(render: Render, fm: FileMap, docs: seq<Option<Doc>>, order: seq<string>, pass: string -> bool, w: Write)
    requires Ordered(Grouped(fm, docs)) && order == Grouped(fm, docs).order
    requires w in PassWrites(render, Grouped(fm, docs).docs, order, pass)
    ensures exists d :: Processed(fm, docs, d) && w == render(fm[d.kind], d)
  {
    var m := Grouped(fm, docs);
    PassHas(render, m.docs, order, pass);
    hide PassWrites;
    var b :| b in order && pass(b) && w in WritesOf(render, b, m.docs[b]);
    GroupedIsByBase(fm, docs);
    OfBaseHas(fm, docs, b);
    var i :| 0 <= i < |m.docs[b]| && w == render(b, m.docs[b][i]);
    assert m.docs[b][i] in OfBase(fm, docs, b);
    assert Processed(fm, docs, m.docs[b][i]);
  }

  lemma AskedIsWritten(render: Render, fm: FileMap, docs: seq<Option<Doc>>, d: Doc)
    requires Ordered(Grouped(fm, docs)) && Processed(fm, docs, d)
    ensures render(fm[d.kind], d) in GroupWrites(render, Grouped(fm, docs))
  {
    var m, b := Grouped(fm, docs), fm[d.kind];
    PassHas(render, m.docs, m.order, InFirst);
    PassHas(render, m.docs, m.order, InSecond);
    hide PassWrites;
    GroupedIsByBase(fm, docs);
    OfBaseHas(fm, docs, b);
    assert d in OfBase(fm, docs, b) && b in m.docs;
    var i :| 0 <= i < |m.docs[b]| && m.docs[b][i] == d;
    assert WritesOf(render, b, m.docs[b])[i] == render(b, d);
    assert InFirst(b) || InSecond(b);
  }

  /** Every processed document is written, and nothing else is. */
  lemma WritesHas(render: Render, fm: FileMap, docs: seq<Option<Doc>>, w: Write)
    requires Ordered(Grouped(fm, docs))
    ensures w in GroupWrites(render, Grouped(fm, docs)) <==>
      exists d :: Processed(fm, docs, d) && w == render(fm[d.kind], d)
  {
    var m := Grouped(fm, docs);
    hide PassWrites, Grouped;
    if w in GroupWrites(render, m) {
      if w in PassWrites(render, m.docs, m.order, InFirst) {
        WritesAreAsked(render, fm, docs, m.order, InFirst, w);
      } else {
        WritesAreAsked(render, fm, docs, m.order, InSecond, w);
      }
    }
    if d :| Processed(fm, docs, d) && w == render(fm[d.kind], d) {
      AskedIsWritten(render, fm, docs, d);
    }
  }

  /** Processed documents that share a path have the same text. */
  ghost predicate AgreeOnPaths(fm: FileMap, docs: seq<Option<Doc>>) {
    forall d, e :: Processed(fm, docs, d) && Processed(fm, docs, e) && PathOf(fm[d.kind], d) == PathOf(fm[e.kind], e)
      ==> d.text == e.text
  }

  lemma SameContentIff(base: string, d: Doc, base': string, e: Doc)
    ensures WriteOf(base, d).content == WriteOf(base', e).content <==> d.text == e.text
  {
    var c, c' := HEADER + d.text, HEADER + e.text;
    assert c[|HEADER|..] == d.text && c'[|HEADER|..] == e.text;
  }

  lemma ConsistentIff(fm: FileMap, docs: seq<Option<Doc>>)
    ensures Consistent(Writes(fm, docs)) <==> AgreeOnPaths(fm, docs)
  {
    GroupedIsByBase(fm, docs);
    var ws := Writes(fm, docs);
    if AgreeOnPaths(fm, docs) {
      forall v, w | v in ws && w in ws && v.path == w.path ensures v.content == w.content {
        WritesHas(WriteOf, fm, docs, v);
        WritesHas(WriteOf, fm, docs, w);
        var d :| Processed(fm, docs, d) && v == WriteOf(fm[d.kind], d);
        var e :| Processed(fm, docs, e) && w == WriteOf(fm[e.kind], e);
      }
    }
    if Consistent(ws) {
      forall d, e | Processed(fm, docs, d) && Processed(fm, docs, e) && PathOf(fm[d.kind], d) == PathOf(fm[e.kind], e)
        ensures d.text == e.text
      {
        var v, w := WriteOf(fm[d.kind], d), WriteOf(fm[e.kind], e);
        WritesHas(WriteOf, fm, docs, v);
        WritesHas(WriteOf, fm, docs, w);
        SameContentIff(fm[d.kind], d, fm[e.kind], e);
      }
    }
  }

  /** Running the script again on the same documents removes nothing, and writes nothing exactly when
      documents that share a path have the same text. */
  lemma SecondRunIff(files: Files, fm: FileMap, docs: seq<Option<Doc>>)
    ensures var once, ws := AfterScript(files, fm, docs), Writes(fm, docs);
      && (Rewritten(once, ws) == [] <==> AgreeOnPaths(fm, docs))
      && Orphans(WriteAll(once, ws), Paths(ws)) == {}
      && (AgreeOnPaths(fm, docs) ==> AfterScript(once, fm, docs) == once)
  {
    hide WriteAll, Rewritten, Paths, Grouped, GroupWrites, AgreeOnPaths, Consistent, PathOf, WriteOf, Ordered;
    GroupedIsByBase(fm, docs);
    var ws := Writes(fm, docs);
    forall w | w in ws ensures w.content != "" {
      WritesHas(WriteOf, fm, docs, w);
      HeaderIsWritten();
    }
    SecondPassIff(files, ws);
    ConsistentIff(fm, docs);
    NoWritesIff(AfterScript(files, fm, docs), ws);
  }

  /** A manifest as a document without its text, which is all its path depends on. */
  function Untitled(m: Manifest): Doc {
    Doc(m.kind, m.name, m.versions, "")
  }

  /** Both are processed, and filed in one place. */
  predicate SameFile(fm: FileMap, m: Manifest, n: Manifest) {
    m.kind in fm && n.kind in fm && PathOf(fm[m.kind], Untitled(m)) == PathOf(fm[n.kind], Untitled(n))
  }

  /** Manifests that are filed in one place are rendered alike once edited. */
  ghost predicate RenderedAlike(fm: FileMap, manifests: seq<Option<Manifest>>, dump: Dump) {
    forall m, n :: Some(m) in manifests && Some(n) in manifests && SameFile(fm, m, n) ==>
      dump(Edited(m)) == dump(Edited(n))
  }

  lemma PathIgnoresText(base: string, d: Doc)
    ensures PathOf(base, d) == PathOf(base, d.(text := ""))
  {
  }

  lemma ManifestsAgreeIff(fm: FileMap, manifests: seq<Option<Manifest>>, dump: Dump)
    ensures AgreeOnPaths(fm, DocsOf(dump, manifests)) <==> RenderedAlike(fm, manifests, dump)
  {
    var docs := DocsOf(dump, manifests);
    forall d | Some(d) in docs ensures exists m :: Some(m) in manifests && DocOf(dump, Some(m)) == Some(d) {
      var i :| 0 <= i < |docs| && docs[i] == Some(d);
      assert manifests[i] == Some(manifests[i].value);
    }
    forall m | Some(m) in manifests ensures DocOf(dump, Some(m)) in docs {
      var i :| 0 <= i < |manifests| && manifests[i] == Some(m);
      assert docs[i] == DocOf(dump, Some(m));
    }
    hide Edited, PathOf, DocsOf;
    if RenderedAlike(fm, manifests, dump) {
      forall d, e | Processed(fm, docs, d) && Processed(fm, docs, e) && PathOf(fm[d.kind], d) == PathOf(fm[e.kind], e)
        ensures d.text == e.text
      {
        var m :| Some(m) in manifests && DocOf(dump, Some(m)) == Some(d);
        var n :| Some(n) in manifests && DocOf(dump, Some(n)) == Some(e);
        PathIgnoresText(fm[m.kind], d);
        PathIgnoresText(fm[n.kind], e);
        assert SameFile(fm, m, n);
      }
    }
    if AgreeOnPaths(fm, docs) {
      forall m, n | Some(m) in manifests && Some(n) in manifests && SameFile(fm, m, n)
        ensures dump(Edited(m)) == dump(Edited(n))
      {
        var d, e := DocOf(dump, Some(m)).value, DocOf(dump, Some(n)).value;
        assert Some(d) in docs && Some(e) in docs;
        PathIgnoresText(fm[m.kind], d);
        PathIgnoresText(fm[n.kind], e);
        assert Processed(fm, docs, d) && Processed(fm, docs, e);
      }
    }
  }

  /** In terms of the manifests: whatever run the files came from, running the script again on the same
      manifests writes nothing if and only if manifests that are filed in one place are rendered alike once
      edited; it never removes anything. */
  lemma SecondRunOnManifestsIff(files: Files, fm: FileMap, manifests: seq<Option<Manifest>>, dump: Dump)
    ensures var docs := DocsOf(dump, manifests);
      var once, ws := AfterScript(files, fm, docs), Writes(fm, docs);
      && Orphans(WriteAll(once, ws), Paths(ws)) == {}
      && (Rewritten(once, ws) == [] <==> RenderedAlike(fm, manifests, dump))
  {
    var docs := DocsOf(dump, manifests);
    SecondRunIff(files, fm, docs);
    ManifestsAgreeIff(fm, manifests, dump);
  }

  /** Service accounts carry no name in their path, so two different ones are rewritten on every run. */
  lemma TwoServiceAccountsNeverSettle(files: Files, d: Doc, e: Doc)
    requires d.kind == e.kind == "ServiceAccount" && d.text != e.text
    ensures var docs := [Some(d), Some(e)];
      Rewritten(AfterScript(files, FILE_MAP, docs), Writes(FILE_MAP, docs)) != []
  {
    var docs := [Some(d), Some(e)];
    SecondRunIff(files, FILE_MAP, docs);
    assert Some(d) in docs && Some(e) in docs;
    assert "ServiceAccount" in FILE_MAP;
    assert PathOf("serviceaccount", d) == PathOf("serviceaccount", e);
  }

  // ---- The mirror ----

  /** The writes into the crds directory, in order. */
  function ToCrds(ws: seq<Write>): seq<Write> {
    if ws == [] then [] else ToCrds(ws[..|ws| - 1]) + if ws[|ws| - 1].path.dir == Crds then [ws[|ws| - 1]] else []
  }

  lemma {:induction false} ToCrdsSplits(v: seq<Write>, w: seq<Write>)
    ensures ToCrds(v + w) == ToCrds(v) + ToCrds(w)
  {
    if w == [] {
      assert v + w == v;
    } else {
      var n := |w| - 1;
      ToCrdsSplits(v, w[..n]);
      assert (v + w)[..|v + w| - 1] == v + w[..n];
    }
  }

  lemma {:induction false} ToCrdsAll(ws: seq<Write>, yes: bool)
    requires forall w :: w in ws ==> (w.path.dir == Crds <==> yes)
    ensures ToCrds(ws) == if yes then ws else []
  {
    if ws != [] {
      ToCrdsAll(ws[..|ws| - 1], yes);
      assert ws == ws[..|ws| - 1] + [ws[|ws| - 1]];
    }
  }

  /** Only documents filed as CRDs go to the crds directory. */
  ghost predicate OnlyCrdsToCrds(render: Render) {
    forall base, d :: render(base, d).path.dir == Crds <==> base == CRD
  }

  lemma {:induction false} ToCrdsOfPass(
    render: Render, docs: map<string, seq<Doc>>, order: seq<string>, pass: string -> bool
  )
    requires OnlyCrdsToCrds(render)
    requires forall b :: b in order ==> b in docs
    requires forall i, j :: 0 <= i < j < |order| ==> order[i] != order[j]
    ensures ToCrds(PassWrites(render, docs, order, pass))
         == if CRD in order && pass(CRD) then WritesOf(render, CRD, docs[CRD]) else []
  {
    hide PassWrites, WritesOf, ToCrds, OnlyCrdsToCrds;
    if order == [] {
      NothingToCrds(render, docs, pass);
    } else {
      var n := |order| - 1;
      var b, before := order[n], order[..n];
      assert order == before + [b] == order[..n + 1];
      assert b !in before;
      ToCrdsOfPass(render, docs, before, pass);
      PassStep(render, docs, order, n, pass);
      ToCrdsOfGroup(render, b, docs[b]);
      ToCrdsSplits(PassWrites(render, docs, before, pass), WritesOf(render, b, docs[b]));
    }
  }

  lemma NothingToCrds(render: Render, docs: map<string, seq<Doc>>, pass: string -> bool)
    ensures ToCrds(PassWrites(render, docs, [], pass)) == []
  {
  }

  lemma ToCrdsOfGroup(render: Render, b: string, docs: seq<Doc>)
    requires OnlyCrdsToCrds(render)
    ensures ToCrds(WritesOf(render, b, docs)) == if b == CRD then WritesOf(render, b, docs) else []
  {
    ToCrdsAll(WritesOf(render, b, docs), b == CRD);
  }

  /** The writes into the crds directory are those of the CRD documents, in their order. */
  lemma ToCrdsOfRun(render: Render, fm: FileMap, docs: seq<Option<Doc>>)
    requires OnlyCrdsToCrds(render) && Ordered(Grouped(fm, docs))
    ensures ToCrds(GroupWrites(render, Grouped(fm, docs))) == WritesOf(render, CRD, OfBase(fm, docs, CRD))
  {
    var m := Grouped(fm, docs);
    GroupedIsByBase(fm, docs);
    ToCrdsOfPass(render, m.docs, m.order, InFirst);
    ToCrdsOfPass(render, m.docs, m.order, InSecond);
    ToCrdsSplits(PassWrites(render, m.docs, m.order, InFirst), PassWrites(render, m.docs, m.order, InSecond));
  }

  lemma {:induction false} CrdsDependOnToCrds(files: Files, ws: seq<Write>, p: Path)
    requires p.dir == Crds
    ensures p in WriteAll(files, ws) <==> p in WriteAll(files, ToCrds(ws))
    ensures p in WriteAll(files, ws) ==> WriteAll(files, ws)[p] == WriteAll(files, ToCrds(ws))[p]
    ensures p in Paths(ws) <==> p in Paths(ToCrds(ws))
  {
    if ws != [] {
      var before, w := ws[..|ws| - 1], ws[|ws| - 1];
      assert ws == before + [w];
      CrdsDependOnToCrds(files, before, p);
      WriteStep(files, before, w);
      WriteStep(files, ToCrds(before), w);
      assert ToCrds(ws) == if w.path.dir == Crds then ToCrds(before) + [w] else ToCrds(before);
      hide WriteAll, Paths, ToCrds, Rewritten;
    }
  }

  lemma CrdPaths(render: Render, crds: seq<Doc>, p: Path)
    ensures p in Paths(WritesOf(render, CRD, crds)) <==> exists d :: d in crds && render(CRD, d).path == p
  {
    var cs := WritesOf(render, CRD, crds);
    if d :| d in crds && render(CRD, d).path == p {
      var k :| 0 <= k < |crds| && crds[k] == d;
      assert cs[k] in cs;
    }
    if p in Paths(cs) {
      var k :| 0 <= k < |cs| && cs[k].path == p;
      assert crds[k] in crds;
    }
  }

  /** The last of the CRD documents that map to p is the i-th. */
  predicate LastFor(render: Render, crds: seq<Doc>, p: Path, i: nat) {
    i < |crds| && render(CRD, crds[i]).path == p && forall j :: i < j < |crds| ==> render(CRD, crds[j]).path != p
  }

  lemma LastCrd(render: Render, crds: seq<Doc>, p: Path, i: nat)
    requires LastAt(WritesOf(render, CRD, crds), p, i)
    ensures LastFor(render, crds, p, i) && WritesOf(render, CRD, crds)[i] == render(CRD, crds[i])
  {
    var cs := WritesOf(render, CRD, crds);
    forall j | i < j < |crds| ensures render(CRD, crds[j]).path != p {
      assert cs[j].path != p;
    }
  }

  /** After the script, the YAML files in the crds directory are exactly those of this run's CRD documents,
      and each holds what the last document that maps to it asks for. */
  lemma MirrorsCrds(render: Render, files: Files, fm: FileMap, docs: seq<Option<Doc>>, p: Path)
    requires OnlyCrdsToCrds(render) && Ordered(Grouped(fm, docs))
    requires p.dir == Crds && IsYaml(p)
    ensures var ws, crds := GroupWrites(render, Grouped(fm, docs)), OfBase(fm, docs, CRD);
      var out := Swept(WriteAll(files, ws), Paths(ws));
      && (p in out <==> exists d :: d in crds && render(CRD, d).path == p)
      && (p in out ==> exists i: nat :: LastFor(render, crds, p, i) && out[p] == render(CRD, crds[i]).content)
  {
    var ws, crds := GroupWrites(render, Grouped(fm, docs)), OfBase(fm, docs, CRD);
    var cs := WritesOf(render, CRD, crds);
    ToCrdsOfRun(render, fm, docs);
    CrdsDependOnToCrds(files, ws, p);
    CrdPaths(render, crds, p);
    var i := WriteAllAt(files, cs, p);
    if p in Paths(cs) {
      LastCrd(render, crds, p, i);
    }
    hide WriteAll, ToCrds, WritesOf, Paths, OfBase, GroupWrites, Grouped;
    var out := Swept(WriteAll(files, ws), Paths(ws));
    assert p in out <==> p in Paths(ws);
  }

  /** The script's own naming and header. */
  lemma CrdsMirrorDocuments(files: Files, fm: FileMap, docs: seq<Option<Doc>>, p: Path)
    requires p.dir == Crds && HasSuffix(p.file, ".yaml")
    ensures var out, crds := AfterScript(files, fm, docs), OfBase(fm, docs, CRD);
      && (p in out <==> exists d :: d in crds && WriteOf(CRD, d).path == p)
      && (p in out ==> exists i: nat :: LastFor(WriteOf, crds, p, i) && out[p] == WriteOf(CRD, crds[i]).content)
  {
    GroupedIsByBase(fm, docs);
    OnlyCrdDocumentsGoToCrds();
    assert IsYaml(p);
    hide PathOf, WriteAll, Paths, OfBase, Grouped, GroupWrites, IsYaml;
    MirrorsCrds(WriteOf, files, fm, docs, p);
  }

  lemma OnlyCrdDocumentsGoToCrds()
    ensures OnlyCrdsToCrds(WriteOf)
  {
  }

  /** A path no document maps to is left alone unless it is a YAML file of the crds directory. */
  lemma OthersAreLeftAlone(files: Files, fm: FileMap, docs: seq<Option<Doc>>, p: Path)
    requires !(p.dir == Crds && HasSuffix(p.file, ".yaml"))
    requires forall d :: Processed(fm, docs, d) ==> PathOf(fm[d.kind], d) != p
    ensures p in AfterScript(files, fm, docs) <==> p in files
    ensures p in files ==> AfterScript(files, fm, docs)[p] == files[p]
  {
    var ws := Writes(fm, docs);
    GroupedIsByBase(fm, docs);
    forall w | w in ws ensures w.path != p {
      WritesHas(WriteOf, fm, docs, w);
    }
    var _ := WriteAllAt(files, ws, p);
  }

  /** A path some document maps to holds the text of such a document. */
  lemma DocumentsAreWritten(files: Files, fm: FileMap, docs: seq<Option<Doc>>, d: Doc)
    requires Processed(fm, docs, d)
    ensures var out, p := AfterScript(files, fm, docs), PathOf(fm[d.kind], d);
      && p in out
      && exists e :: Processed(fm, docs, e) && PathOf(fm[e.kind], e) == p && out[p] == HEADER + e.text
  {
    var ws, p := Writes(fm, docs), PathOf(fm[d.kind], d);
    GroupedIsByBase(fm, docs);
    WritesHas(WriteOf, fm, docs, WriteOf(fm[d.kind], d));
    assert p in Paths(ws) by {
      assert WriteOf(fm[d.kind], d) in ws;
    }
    var i := WriteAllAt(files, ws, p);
    assert ws[i] in ws;
    WritesHas(WriteOf, fm, docs, ws[i]);
    var e :| Processed(fm, docs, e) && ws[i] == WriteOf(fm[e.kind], e);
  }

  // ---- Where documents go ----

  /** The version of the first entry marked as the storage one. */
  lemma {:induction false} StorageVersionIs(versions: seq<Version>)
    ensures (forall v :: v in versions ==> !v.storage) ==> StorageVersion(versions) == ""
    ensures forall i :: 0 <= i < |versions| && versions[i].storage && (forall j :: 0 <= j < i ==> !versions[j].storage) ==>
      StorageVersion(versions) == versions[i].name
  {
    if versions != [] && !versions[0].storage {
      StorageVersionIs(versions[1..]);
    }
  }

  /** Every file is a YAML file, so those of CRDs are within the reach of later sweeps. */
  lemma PathIsYaml(base: string, d: Doc)
    ensures HasSuffix(PathOf(base, d).file, ".yaml")
  {
    var file := PathOf(base, d).file;
    assert file[..|file| - 5] + ".yaml" == file;
  }

  /** Two CRDs share a file only if they have one name and one storage version. */
  lemma CrdPathsDiffer(a: Doc, b: Doc)
    requires a.kind == b.kind == "CustomResourceDefinition"
    requires StorageVersion(a.versions) != "" && '-' !in StorageVersion(a.versions)
    requires StorageVersion(b.versions) != "" && '-' !in StorageVersion(b.versions)
    ensures PathOf("crd", a) == PathOf("crd", b) <==>
      a.name == b.name && StorageVersion(a.versions) == StorageVersion(b.versions)
  {
    var v, w := StorageVersion(a.versions), StorageVersion(b.versions);
    CrdFile(a);
    CrdFile(b);
    hide StorageVersion, PathOf;
    if PathOf("crd", a) == PathOf("crd", b) {
      var x, y := a.name + ['-'] + v, b.name + ['-'] + w;
      assert ("crd-" + x + ".yaml")[4..][..|x|] == x && ("crd-" + y + ".yaml")[4..][..|y|] == y;
      LastJoinIsInjective(a.name, v, b.name, w, '-');
    }
  }

  lemma CrdFile(d: Doc)
    requires d.kind == "CustomResourceDefinition" && StorageVersion(d.versions) != ""
    ensures PathOf("crd", d) == Path(Crds, "crd-" + (d.name + ['-'] + StorageVersion(d.versions)) + ".yaml")
  {
    hide StorageVersion, RemoveAll;
    var v := StorageVersion(d.versions);
    assert "crd-" + d.name + ("-" + v) + ".yaml" == "crd-" + (d.name + ['-'] + v) + ".yaml";
  }

  /** So where the CRDs of a run have different names, each has a file of its own, with its own text. */
  lemma EachCrdHasItsFile(files: Files, docs: seq<Option<Doc>>, d: Doc)
    requires Processed(FILE_MAP, docs, d) && d.kind == "CustomResourceDefinition"
    requires forall e :: Some(e) in docs && e.kind == "CustomResourceDefinition" ==>
      && StorageVersion(e.versions) != "" && '-' !in StorageVersion(e.versions)
      && (e.name == d.name ==> e == d)
    ensures var out, p := AfterScript(files, FILE_MAP, docs), PathOf("crd", d);
      p in out && out[p] == HEADER + d.text
  {
    hide PathOf, AfterScript, StorageVersion;
    var out, p := AfterScript(files, FILE_MAP, docs), PathOf("crd", d);
    CrdsAreFiledAsCrds();
    DocumentsAreWritten(files, FILE_MAP, docs, d);
    var e :| Processed(FILE_MAP, docs, e) && PathOf(FILE_MAP[e.kind], e) == p && out[p] == HEADER + e.text;
    OnlyCrdsAreFiledAsCrds(e);
    assert Some(e) in docs && Some(d) in docs;
    CrdPathsDiffer(e, d);
  }

  lemma CrdsAreFiledAsCrds()
    ensures "CustomResourceDefinition" in FILE_MAP && FILE_MAP["CustomResourceDefinition"] == "crd" == CRD
  {
  }

  lemma OnlyCrdsAreFiledAsCrds(e: Doc)
    requires e.kind in FILE_MAP && PathOf(FILE_MAP[e.kind], e).dir == Crds
    ensures e.kind == "CustomResourceDefinition"
  {
  }

  /** The kinds of which there is one go to the files the operator loads them from. */
  lemma SingleFiles(d: Doc)
    ensures d.kind == "Deployment" ==> PathOf(FILE_MAP[d.kind], d) == Path(Root, "deployment.yaml")
    ensures d.kind == "ServiceAccount" ==> PathOf(FILE_MAP[d.kind], d) == Path(Root, "serviceaccount.yaml")
    ensures d.kind == "MutatingWebhookConfiguration" ==> PathOf(FILE_MAP[d.kind], d) == Path(Root, "mutatingwebhook.yaml")
    ensures d.kind == "ValidatingWebhookConfiguration" ==> PathOf(FILE_MAP[d.kind], d) == Path(Root, "validatingwebhook.yaml")
    ensures d.kind == "APIService" ==> PathOf(FILE_MAP[d.kind], d) == Path(Root, "apiservice-" + d.name + ".yaml")
  {
  }

  /** Where roles, bindings and services go: their names lose the leading "kueue-" and a trailing "-role" or
      "-rolebinding", which gives the paths the operator loads its assets from. */
  lemma NamesAreCleaned(d: Doc, rest: string)
    requires !Has(rest, "kueue-")
    ensures d.kind == "ClusterRole" && d.name == "kueue-" + rest ==>
      PathOf("clusterrole", d) == Path(ClusterRoles, "clusterrole-" + rest + ".yaml")
    ensures d.kind == "Service" && d.name == "kueue-" + rest ==>
      PathOf("service", d) == Path(Root, rest + ".yaml")
  {
    hide RemoveAll, Has;
    RemoveAllPrefix("kueue-", rest);
  }

  lemma RoleNamesAreCleaned(d: Doc, rest: string)
    requires d.kind == "Role" && d.name == "kueue-" + (rest + "-role") && !Has(rest + "-role", "kueue-")
    requires forall i: nat :: i < |rest| ==> !StandsAt(rest + "-role", "-role", i)
    ensures PathOf("role", d) == Path(Root, "role-" + rest + ".yaml")
  {
    hide RemoveAll, Has, StandsAt;
    RemoveAllPrefix("kueue-", rest + "-role");
    RemoveAllSuffix(rest, "-role");
  }

  lemma BindingNamesAreCleaned(d: Doc, rest: string)
    requires d.kind == "RoleBinding" || d.kind == "ClusterRoleBinding"
    requires d.name == "kueue-" + (rest + "-rolebinding") && !Has(rest + "-rolebinding", "kueue-")
    requires !Has(rest, "-binding") && forall i: nat :: i < |rest| ==> !StandsAt(rest + "-rolebinding", "-rolebinding", i)
    ensures PathOf("rolebinding", d) == Path(Root, "rolebinding-" + rest + ".yaml")
    ensures PathOf("clusterrolebinding", d) == Path(Root, "clusterrolebinding-" + rest + ".yaml")
  {
    hide CleanName, StorageVersion, Has, StandsAt;
    BindingNameIsCleaned(d.kind, rest);
  }

  lemma BindingNameIsCleaned(kind: string, rest: string)
    requires kind == "RoleBinding" || kind == "ClusterRoleBinding"
    requires !Has(rest + "-rolebinding", "kueue-") && !Has(rest, "-binding")
    requires forall i: nat :: i < |rest| ==> !StandsAt(rest + "-rolebinding", "-rolebinding", i)
    ensures CleanName("kueue-" + (rest + "-rolebinding"), kind) == rest
  {
    hide RemoveAll, Has, StandsAt;
    RemoveAllPrefix("kueue-", rest + "-rolebinding");
    RemoveAllSuffix(rest, "-rolebinding");
    RemoveAllNothing(rest, "-binding");
  }
}
