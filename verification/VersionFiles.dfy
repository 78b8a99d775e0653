/** The writer of the version fields, and the independent reader that checks it. */
module VersionFiles {
  import opened Prelude
  import CalVer

  /** A listed field: where it is, and how it is found there (a JSON key, or a pattern and template). */
  datatype Field = Field(path: string, kind: string, locator: string)

  type Files = map<string, string>

  /** read_field on a file's text; the value of a field that is not there. */
  type Reader = (Field, string) -> string

  /** A field's file with the version put in; None for the errors rendering raises. */
  type Renderer = (Field, string, string) -> Option<string>

  datatype Result = Ok(version: string) | Mismatch | BadFormat | Missing

  // ----- the reader

  predicate AllPresent(files: Files, fields: seq<Field>) { forall f | f in fields :: f.path in files }

  /** read_versions: one value per path, the last listed field of a path winning. */
  function ReadVersions(files: Files, fields: seq<Field>, read: Reader): map<string, string>
    requires AllPresent(files, fields)
  {
    if fields == [] then map[]
    else
      var n := |fields| - 1;
      ReadVersions(files, fields[..n], read)[fields[n].path := read(fields[n], files[fields[n].path])]
  }

  function ValidateVersions(files: Files, fields: seq<Field>, read: Reader): Result {
    if !AllPresent(files, fields) then Missing
    else
      var distinct := ReadVersions(files, fields, read).Values;
      if |distinct| != 1 then Mismatch
      else
        var version :| version in distinct;
        assert forall v | v in distinct :: v == version by { SingletonOnly(distinct, version); }
        if CalVer.Matches(version) then Ok(version) else BadFormat
  }

  lemma SingletonOnly(s: set<string>, x: string)
    requires |s| == 1 && x in s
    ensures s == {x}
  {
    assert |s - {x}| == 0;
  }

  /** The last listed field of a path: the one whose value the reader keeps. */
  function LastField(fields: seq<Field>, path: string): (last: Field)
    requires exists f :: f in fields && f.path == path
    ensures last in fields && last.path == path
  {
    var n := |fields| - 1;
    if fields[n].path == path then fields[n]
    else
      assert fields == fields[..n] + [fields[n]];
      LastField(fields[..n], path)
  }

  lemma {:induction false} ReadsLast(files: Files, fields: seq<Field>, read: Reader)
    requires AllPresent(files, fields)
    ensures forall p :: p in ReadVersions(files, fields, read) <==> exists f :: f in fields && f.path == p
    ensures forall f | f in fields ::
              ReadVersions(files, fields, read)[f.path] == read(LastField(fields, f.path), files[f.path])
  {
    if fields != [] {
      var n := |fields| - 1;
      ReadsLast(files, fields[..n], read);
      assert fields == fields[..n] + [fields[n]];
    }
  }

  /** The reader finds the version in the last field of every path. */
  predicate LastRead(files: Files, fields: seq<Field>, read: Reader, version: string)
    requires AllPresent(files, fields)
  {
    forall f | f in fields :: read(LastField(fields, f.path), files[f.path]) == version
  }

  predicate AllRead(files: Files, fields: seq<Field>, read: Reader, version: string)
    requires AllPresent(files, fields)
  {
    forall f | f in fields :: read(f, files[f.path]) == version
  }

  /** The reader returns v exactly when there are fields, the last one of every path reads v, and v has the form. */
  lemma ValidatesIff(files: Files, fields: seq<Field>, read: Reader, v: string)
    requires AllPresent(files, fields)
    ensures ValidateVersions(files, fields, read) == Ok(v) <==>
              fields != [] && LastRead(files, fields, read, v) && CalVer.Matches(v)
  {
    var versions := ReadVersions(files, fields, read);
    ReadsLast(files, fields, read);
    if fields != [] && LastRead(files, fields, read, v) {
      assert fields[0] in fields;
      assert versions[fields[0].path] in versions.Values;
      assert versions.Values == {v};
    }
    if ValidateVersions(files, fields, read) == Ok(v) {
      SingletonOnly(versions.Values, v);
      forall f | f in fields ensures read(LastField(fields, f.path), files[f.path]) == v {
        assert versions[f.path] in versions.Values;
      }
    }
  }

  // ----- the writer

  /** The texts to be written, by path, or None when a field does not render. */
  function Rendered(files: Files, fields: seq<Field>, version: string, render: Renderer): Option<Files> {
    if fields == [] then Some(map[])
    else
      var n := |fields| - 1;
      var before := Rendered(files, fields[..n], version, render);
      var f := fields[n];
      if before.None? || f.path !in files then None
      else
        var text := render(f, files[f.path], version);
        if text.None? then None else Some(before.value[f.path := text.value])
  }

  predicate Renders(files: Files, f: Field, version: string, render: Renderer) {
    f.path in files && render(f, files[f.path], version).Some?
  }

  lemma {:induction false} RendersAll(files: Files, fields: seq<Field>, version: string, render: Renderer)
    ensures Rendered(files, fields, version, render).Some? <==>
              forall f | f in fields :: Renders(files, f, version, render)
    ensures var rendered := Rendered(files, fields, version, render);
            rendered.Some? ==> rendered.value.Keys == FieldPaths(fields)
  {
    if fields != [] {
      var n := |fields| - 1;
      var front := fields[..n];
      RendersAll(files, front, version, render);
      assert fields == front + [fields[n]];
      assert forall f | f in front :: f in fields;
      if forall f | f in fields :: Renders(files, f, version, render) {
        assert fields[n] in fields && Renders(files, fields[n], version, render);
      }
    }
  }

  function FieldPaths(fields: seq<Field>): set<string> { set f | f in fields :: f.path }

  datatype Written = Written(files: Files, raised: bool)

  /** set_version: render every field, then write every file, then have the reader check. */
  function SetVersionIn(files: Files, fields: seq<Field>, version: string, read: Reader, render: Renderer): Written {
    var rendered := Rendered(files, fields, version, render);
    if CalVer.ParseCalver(version).None? || rendered.None? then Written(files, true)
    else
      var after := files + rendered.value;
      Written(after, ValidateVersions(after, fields, read) != Ok(version))
  }

  /** If any field fails to render, or the version is no version, no file changes. */
  lemma AllOrNothing(files: Files, fields: seq<Field>, version: string, read: Reader, render: Renderer)
    requires CalVer.ParseCalver(version).None? || exists f :: f in fields && !Renders(files, f, version, render)
    ensures SetVersionIn(files, fields, version, read, render) == Written(files, true)
  {
    RendersAll(files, fields, version, render);
  }

  /** If it returns, the last field of every path reads back the version, and no other file has changed. */
  lemma ReturnMeansWritten(files: Files, fields: seq<Field>, version: string, read: Reader, render: Renderer)
    requires !SetVersionIn(files, fields, version, read, render).raised
    ensures var after := SetVersionIn(files, fields, version, read, render).files;
            && fields != [] && AllPresent(after, fields) && LastRead(after, fields, read, version)
            && after.Keys == files.Keys
            && forall p | p in files && p !in FieldPaths(fields) :: after[p] == files[p]
  {
    RendersAll(files, fields, version, render);
    var after := SetVersionIn(files, fields, version, read, render).files;
    assert AllPresent(after, fields);
    ValidatesIff(after, fields, read, version);
  }

  /** Exactly what is written, when every field renders: each path's file as its last field renders it. */
  lemma WritesRendered(files: Files, fields: seq<Field>, version: string, read: Reader, render: Renderer)
    requires CalVer.ParseCalver(version).Some? && forall f | f in fields :: Renders(files, f, version, render)
    ensures var result := SetVersionIn(files, fields, version, read, render);
            && result.files.Keys == files.Keys && AllPresent(result.files, fields)
            && (forall f | f in fields ::
                  Some(result.files[f.path]) == render(LastField(fields, f.path), files[f.path], version))
            && (forall p | p in files && p !in FieldPaths(fields) :: result.files[p] == files[p])
            && (!result.raised <==> fields != [] && LastRead(result.files, fields, read, version))
  {
    RendersAll(files, fields, version, render);
    RenderedLast(files, fields, version, render);
    ValidatesIff(SetVersionIn(files, fields, version, read, render).files, fields, read, version);
  }

  /** A call that returns has made every listed field read the version. */
  predicate KeepsPromise(files: Files, fields: seq<Field>, version: string, read: Reader, render: Renderer) {
    var result := SetVersionIn(files, fields, version, read, render);
    !result.raised ==> AllPresent(result.files, fields) && AllRead(result.files, fields, read, version)
  }

  /** No two different fields are in one file. */
  predicate OneFieldPerPath(fields: seq<Field>) {
    forall f, g | f in fields && g in fields && f.path == g.path :: f == g
  }

  /**
    Whatever the files, the version, the reader and the renderer, returning means that every listed
    field reads the version: exactly for the lists with no two different fields of one file.
   */
  lemma PromiseIff(fields: seq<Field>)
    ensures (forall files, version, read, render :: KeepsPromise(files, fields, version, read, render)) <==>
              OneFieldPerPath(fields)
  {
    if OneFieldPerPath(fields) {
      forall files, version, read, render ensures KeepsPromise(files, fields, version, read, render) {
        if !SetVersionIn(files, fields, version, read, render).raised {
          ReturnMeansWritten(files, fields, version, read, render);
        }
      }
    } else {
      var f, g :| f in fields && g in fields && f.path == g.path && f != g;
      PromiseBroken(fields, if f == LastField(fields, f.path) then g else f);
    }
  }

  /** Every field renders to the empty text... */
  function Emptied(f: Field, text: string, version: string): Option<string> { Some("") }

  /** ...and reads the version, but for one. */
  function Hiding(hidden: Field, version: string): Reader {
    (f: Field, text: string) => if f == hidden then "<missing>" else version
  }

  /** A field that is not the last of its path can read anything at all. */
  lemma PromiseBroken(fields: seq<Field>, hidden: Field)
    requires hidden in fields && hidden != LastField(fields, hidden.path)
    ensures exists files, version, read, render :: !KeepsPromise(files, fields, version, read, render)
  {
    var version := SomeVersion();
    var files: Files := map p | p in FieldPaths(fields) :: "";
    HiddenUnread(files, fields, hidden, version, Hiding(hidden, version));
    assert !KeepsPromise(files, fields, version, Hiding(hidden, version), Emptied);
  }

  lemma SomeVersion() returns (version: string)
    ensures CalVer.ParseCalver(version).Some?
  {
    version := CalVer.PrintCalver(CalVer.Date(2026, 9, 3), 1);
    CalVer.ParseOfPrint(CalVer.Date(2026, 9, 3), 1);
  }

  lemma HiddenUnread(files: Files, fields: seq<Field>, hidden: Field, version: string, read: Reader)
    requires hidden in fields && hidden != LastField(fields, hidden.path) && AllPresent(files, fields)
    requires CalVer.ParseCalver(version).Some? && read == Hiding(hidden, version)
    ensures !KeepsPromise(files, fields, version, read, Emptied)
  {
    assert forall f | f in fields :: Renders(files, f, version, Emptied);
    RendersAll(files, fields, version, Emptied);
    var after := SetVersionIn(files, fields, version, read, Emptied).files;
    assert forall f | f in fields :: LastField(fields, f.path) != hidden;
    ValidatesIff(after, fields, read, version);
    assert read(hidden, after[hidden.path]) == "<missing>" && !CalVer.Matches("<missing>");
  }

  lemma {:induction false} RenderedLast(files: Files, fields: seq<Field>, version: string, render: Renderer)
    requires Rendered(files, fields, version, render).Some?
    ensures forall f | f in fields ::
              && f.path in Rendered(files, fields, version, render).value && f.path in files
              && Some(Rendered(files, fields, version, render).value[f.path])
              == render(LastField(fields, f.path), files[f.path], version)
  {
    if fields != [] {
      var n := |fields| - 1;
      RenderedLast(files, fields[..n], version, render);
      assert fields == fields[..n] + [fields[n]];
    }
  }

  /** A reader that understands what the renderer writes: every valid version is written and returned. */
  lemma LawfulFieldsSucceed(files: Files, fields: seq<Field>, version: string, read: Reader, render: Renderer)
    requires CalVer.ParseCalver(version).Some? && fields != []
    requires forall f | f in fields ::
               Renders(files, f, version, render) && read(f, render(f, files[f.path], version).value) == version
    ensures !SetVersionIn(files, fields, version, read, render).raised
  {
    RendersAll(files, fields, version, render);
    RenderedLast(files, fields, version, render);
    var after := SetVersionIn(files, fields, version, read, render).files;
    assert AllPresent(after, fields);
    ValidatesIff(after, fields, read, version);
  }

  // A renderer and a reader of files that hold a locator and a version.

  function Labelled(f: Field, text: string, version: string): Option<string> { Some(f.locator + version) }

  function Unlabelled(f: Field, text: string): string {
    if f.locator <= text then text[|f.locator|..] else "<missing>"
  }

  /** Two fields of one file: the last one wins, and the reader looks at nothing else. */
  lemma SharedPathUnchecked(version: string)
    requires CalVer.ParseCalver(version).Some?
    ensures var fields := [Field("p", "regex", "a"), Field("p", "regex", "b")];
            var result := SetVersionIn(map["p" := ""], fields, version, Unlabelled, Labelled);
            !result.raised && AllPresent(result.files, fields) && !AllRead(result.files, fields, Unlabelled, version)
  {
    var a, b := Field("p", "regex", "a"), Field("p", "regex", "b");
    var files: Files := map["p" := ""];
    var fields := [a, b];
    assert fields[0] == a && fields[1] == b && LastField(fields, "p") == b;
    RendersAll(files, fields, version, Labelled);
    RenderedLast(files, fields, version, Labelled);
    var after := SetVersionIn(files, fields, version, Unlabelled, Labelled).files;
    LabelsTold(version);
    assert after["p"] == "b" + version;
    ValidatesIff(after, fields, Unlabelled, version);
  }

  lemma LabelsTold(version: string)
    requires CalVer.ParseCalver(version).Some?
    ensures Unlabelled(Field("p", "regex", "b"), "b" + version) == version
    ensures Unlabelled(Field("p", "regex", "a"), "b" + version) != version
  {
    assert ("b" + version)[0] == 'b' && ("b" + version)[1..] == version;
    assert !CalVer.Matches("<missing>");
  }

  class Repository {
    var files: Files

    method SetVersion(fields: seq<Field>, version: string, read: Reader, render: Renderer) returns (raised: bool)
      modifies this
      ensures Written(files, raised) == SetVersionIn(old(files), fields, version, read, render)
    {
      if CalVer.ParseCalver(version).None? { return true; }
      var rendered: Files := map[];
      for i := 0 to |fields|
        invariant files == old(files)
        invariant Rendered(files, fields[..i], version, render) == Some(rendered)
      {
        var f := fields[i];
        assert fields[..i + 1][..i] == fields[..i];
        if f.path !in files || render(f, files[f.path], version).None? {
          assert f in fields && !Renders(files, f, version, render);
          RendersAll(files, fields, version, render);
          return true;
        }
        rendered := rendered[f.path := render(f, files[f.path], version).value];
      }
      assert fields[..|fields|] == fields;
      files := files + rendered;
      var checked := ValidateVersions(files, fields, read);
      return checked != Ok(version);
    }
  }
}
