/**
 * Artifacts: the four-part key (category, type, format, variant) that names what the
 * generator produces, and the pure rules built on it: the output directory and file
 * extension of an artifact, the file a template is loaded from, and the builder an
 * artifact is handed to.
 */
module Artifacts {
  import opened Wrappers
  import opened PhpStrings
  import opened PhpValues
  import opened OrderedMap

  /** The category constants. */
  const Code := "code"
  const Documentation := "documentation"
  const Tests := "tests"
  const Project := "project"
  const Configuration := "configuration"

  /**
   * An artifact, stored verbatim with no case normalisation. `kind` is the artifact's
   * type; the variant is '' when the constructor is not given one.
   */
  datatype Artifact = Artifact(category: string, kind: string, format: string, variant: string := "")

  /** A template: its name and the artifact it renders. Its Twig extensions are not modelled. */
  datatype Template = Template(name: string, artifact: Artifact)

  // ---------------------------------------------------------------------------------
  // ArtifactHelper

  /** The directory an artifact category starts from. */
  function BaseDirectory(category: string): (r: string)
    ensures r == "src" <==> category == Code
    ensures r == "tests" <==> category == Tests
    ensures r == "docs" <==> category == Documentation
    ensures r == "." <==> category !in {Code, Tests, Documentation}
  {
    if category == Code then "src"
    else if category == Tests then "tests"
    else if category == Documentation then "docs"
    else "."
  }

  /** The lower-cased namespace with '.', '\' and ' ' turned into '/'. */
  function JavaBasePath(namespace: string): (r: string)
    ensures |r| == |namespace|
    ensures forall i :: 0 <= i < |r| ==> r[i] == if namespace[i] in {'.', '\\', ' '} then '/' else LowerChar(namespace[i])
  {
    MapChars(Lower(namespace), {'.', '\\', ' '}, '/')
  }

  /** The Java base path has no separator but '/' and no upper-case letter. */
  lemma JavaBasePathShape(namespace: string)
    ensures forall i :: 0 <= i < |JavaBasePath(namespace)| ==> JavaBasePath(namespace)[i] !in {'.', '\\', ' '}
    ensures forall i :: 0 <= i < |JavaBasePath(namespace)| ==> !('A' <= JavaBasePath(namespace)[i] <= 'Z')
  {
  }

  /** The directory an artifact is written to; the package is read only for its namespace. */
  function Directory(namespace: string, a: Artifact): (r: string)
    ensures a.kind == "migration" && a.format == "mysql" ==> r == "migrations"
    ensures a.kind == "entity" && a.format == "php" ==> r == BaseDirectory(a.category) + "/Entity"
    ensures a.kind == "entity" && a.format == "java" ==> r == BaseDirectory(a.category) + "/" + JavaBasePath(namespace) + "/entity"
    ensures a.kind == "repository" && a.format == "php" ==> r == BaseDirectory(a.category) + "/Repository"
    ensures a.kind == "repository" && a.format == "java" ==> r == BaseDirectory(a.category) + "/" + JavaBasePath(namespace) + "/repository"
    ensures a.kind == "migration" && a.format == "php" ==> r == BaseDirectory(a.category) + "/Migrations"
    ensures !(a.kind in {"entity", "repository"} && a.format in {"php", "java"}) && !(a.kind == "migration" && a.format in {"php", "mysql"})
      ==> r == BaseDirectory(a.category)
  {
    var dir := BaseDirectory(a.category);
    if a.kind == "entity" then
      if a.format == "php" then dir + "/Entity"
      else if a.format == "java" then dir + "/" + JavaBasePath(namespace) + "/entity"
      else dir
    else if a.kind == "repository" then
      if a.format == "php" then dir + "/Repository"
      else if a.format == "java" then dir + "/" + JavaBasePath(namespace) + "/repository"
      else dir
    else if a.kind == "migration" then
      if a.format == "php" then dir + "/Migrations"
      else if a.format == "mysql" then "migrations"
      else dir
    else dir
  }

  /**
   * The directory never depends on the variant, and depends on the namespace only for
   * Java entities and repositories. Matching is case-sensitive: a type or format that
   * differs from the listed ones only in case keeps the base directory.
   */
  lemma DirectoryDependsOn(ns1: string, ns2: string, a: Artifact, variant: string)
    ensures Directory(ns1, a) == Directory(ns1, a.(variant := variant))
    ensures !(a.kind in {"entity", "repository"} && a.format == "java") ==> Directory(ns1, a) == Directory(ns2, a)
    ensures a.kind == "ENTITY" ==> Directory(ns1, a) == BaseDirectory(a.category)
    ensures a.format == "PHP" ==> Directory(ns1, a) == BaseDirectory(a.category)
  {
  }

  /** Every directory starts with its category's base, except the MySQL migrations directory. */
  lemma DirectoryUnderBase(namespace: string, a: Artifact)
    ensures !(a.kind == "migration" && a.format == "mysql") ==>
      var base := BaseDirectory(a.category);
      var dir := Directory(namespace, a);
      |base| <= |dir| && dir[..|base|] == base
  {
  }

  /** The file extension for an artifact's format. */
  function FilenameExtension(format: string): (r: string)
    ensures format == "php" ==> r == ".php"
    ensures format == "java" ==> r == ".java"
    ensures format == "sh" ==> r == ".sh"
    ensures format == "mysql" ==> r == ".sql"
    ensures r == ".txt" <==> format !in {"php", "java", "sh", "mysql"}
  {
    if format == "php" then ".php"
    else if format == "java" then ".java"
    else if format == "sh" then ".sh"
    else if format == "mysql" then ".sql"
    else ".txt"
  }

  // ---------------------------------------------------------------------------------
  // TemplateRenderer::getTemplateFilename

  /** A path segment: the part and a '/', or nothing when PHP's `empty()` holds for the part. */
  function Segment(part: string): string
  {
    if IsEmpty(part) then "" else part + "/"
  }

  /** The template's directory: category, then format (not for projects), then type, lower-cased. */
  function TemplateDirectory(a: Artifact): (r: string)
    ensures |r| == |Segment(a.category)| + (if a.category == Project then 0 else |Segment(a.format)|) + |Segment(a.kind)|
  {
    Lower(Segment(a.category) + (if a.category == Project then "" else Segment(a.format)) + Segment(a.kind))
  }

  /** The file a template is loaded from. */
  function TemplateFilename(t: Template): (r: string)
    ensures |r| == |TemplateDirectory(t.artifact)| + |t.name| + |FilenameExtension(t.artifact.format)| + 5
  {
    TemplateDirectory(t.artifact) + t.name + FilenameExtension(t.artifact.format) + ".twig"
  }

  /** The file name ends with the template's own name, unchanged in case, the extension and '.twig'. */
  lemma TemplateFilenameSuffix(t: Template)
    ensures var r := TemplateFilename(t);
      var suffix := t.name + FilenameExtension(t.artifact.format) + ".twig";
      |suffix| <= |r| && r[|r| - |suffix|..] == suffix
  {
    var r := TemplateFilename(t);
    var suffix := t.name + FilenameExtension(t.artifact.format) + ".twig";
    assert r == TemplateDirectory(t.artifact) + suffix;
  }

  /** The directory part has no upper-case letter, whatever the case of the artifact's parts. */
  lemma TemplateDirectoryLowerCase(a: Artifact)
    ensures forall i :: 0 <= i < |TemplateDirectory(a)| ==> !('A' <= TemplateDirectory(a)[i] <= 'Z')
  {
  }

  /** The directory part ignores the case of the artifact's parts. */
  lemma TemplateDirectoryIgnoresCase(a: Artifact, b: Artifact)
    requires a.category == Project <==> b.category == Project
    requires Lower(a.category) == Lower(b.category) && Lower(a.format) == Lower(b.format) && Lower(a.kind) == Lower(b.kind)
    ensures TemplateDirectory(a) == TemplateDirectory(b)
  {
    LowerSegment(a.category, b.category);
    LowerSegment(a.format, b.format);
    LowerSegment(a.kind, b.kind);
    LowerConcat(Segment(a.category), (if a.category == Project then "" else Segment(a.format)), Segment(a.kind));
    LowerConcat(Segment(b.category), (if b.category == Project then "" else Segment(b.format)), Segment(b.kind));
  }

  lemma LowerSegment(x: string, y: string)
    requires Lower(x) == Lower(y)
    ensures Lower(Segment(x)) == Lower(Segment(y))
  {
    assert IsEmpty(x) <==> IsEmpty(y) by {
      if x == "0" || y == "0" {
        assert |x| == 1 && |y| == 1;
        assert Lower(x)[0] == LowerChar(x[0]) && Lower(y)[0] == LowerChar(y[0]);
      }
    }
    if !IsEmpty(x) {
      LowerConcat(x, "/", "");
      LowerConcat(y, "/", "");
      assert x + "/" + "" == x + "/";
      assert y + "/" + "" == y + "/";
    }
  }

  lemma LowerConcat(x: string, y: string, z: string)
    ensures Lower(x + y + z) == Lower(x) + Lower(y) + Lower(z)
  {
    var l := Lower(x + y + z);
    assert forall i :: 0 <= i < |l| ==> l[i] == (Lower(x) + Lower(y) + Lower(z))[i];
  }

  /** A project template's directory does not depend on the format. */
  lemma ProjectTemplateIgnoresFormat(a: Artifact, format: string)
    requires a.category == Project
    ensures TemplateDirectory(a) == TemplateDirectory(a.(format := format))
  {
  }

  /** Each part contributes a segment iff PHP finds it non-empty; the format never does for projects. */
  lemma TemplateDirectorySegments(a: Artifact)
    ensures IsEmpty(a.category) && IsEmpty(a.kind) && (a.category == Project || IsEmpty(a.format)) ==> TemplateDirectory(a) == ""
    ensures a.category == Project ==> TemplateDirectory(a) == Lower(a.category + "/" + Segment(a.kind))
    ensures !IsEmpty(a.category) && a.category != Project && !IsEmpty(a.format) && !IsEmpty(a.kind) ==>
      TemplateDirectory(a) == Lower(a.category + "/" + a.format + "/" + a.kind + "/")
    ensures IsEmpty(a.category) && !IsEmpty(a.format) && IsEmpty(a.kind) ==> TemplateDirectory(a) == Lower(a.format + "/")
  {
    if a.category == Project {
      assert Segment(a.category) == a.category + "/";
      assert Segment(a.category) + "" + Segment(a.kind) == a.category + "/" + Segment(a.kind);
    }
    if !IsEmpty(a.category) && a.category != Project && !IsEmpty(a.format) && !IsEmpty(a.kind) {
      assert Segment(a.category) + Segment(a.format) + Segment(a.kind) == a.category + "/" + a.format + "/" + a.kind + "/";
    }
    if IsEmpty(a.category) && !IsEmpty(a.format) && IsEmpty(a.kind) {
      assert Segment(a.category) + Segment(a.format) + Segment(a.kind) == a.format + "/";
    }
  }

  // ---------------------------------------------------------------------------------
  // ArtifactBuilderFactory

  /** The builders an artifact can be handed to. */
  datatype Builder = EntityBuilder | RepositoryBuilder | MigrationBuilder | ProjectScriptBuilder

  /** The fully qualified class name stored for a builder. */
  function ClassName(b: Builder): (r: string)
    ensures |r| > 0 && forall i :: 0 <= i < |r| ==> r[i] != '0'
  {
    match b
    case EntityBuilder => "CodePrimer\\Builder\\EntityBuilder"
    case RepositoryBuilder => "CodePrimer\\Builder\\RepositoryBuilder"
    case MigrationBuilder => "CodePrimer\\Builder\\MigrationBuilder"
    case ProjectScriptBuilder => "CodePrimer\\Builder\\ProjectScriptBuilder"
  }

  /** A registry entry: a class name, or a nested table of class names keyed by type. */
  datatype BuilderEntry = BuilderClass(builder: Builder) | BuilderTable(table: seq<(string, Builder)>)

  const NoClassName := "Class name must be a valid object or a string"

  function NoBuilder(kind: string): string
  {
    "No builder available for type " + kind
  }

  function ClassNotFound(name: string): string
  {
    "Class '" + name + "' not found"
  }

  /**
   * `$s[$k]` on a string inside `empty()`: a key PHP 7 reads as an integer numeric string
   * (leading blanks, a sign and leading zeros allowed) within the string's bounds, negative
   * keys counting from the end, reads one character; any other key is unset.
   */
  function StringOffset(s: string, key: string): (r: Option<string>)
    ensures r.Some? <==> IntegerString(key).Some? && -|s| <= IntegerString(key).value < |s|
    ensures r.Some? ==>
      var i := IntegerString(key).value;
      r.value == [if i >= 0 then s[i] else s[|s| + i]]
  {
    match IntegerString(key)
    case Some(i) =>
      if 0 <= i < |s| then Some([s[i]])
      else if -|s| <= i < 0 then Some([s[|s| + i]])
      else None
    case None => None
  }

  /**
   * `$this->builders[$category][$type]` when PHP finds it non-empty, with what `new` then
   * makes of it: a registered class, or a fatal error for a one-character class name.
   */
  function NestedBuilder(builders: seq<(string, BuilderEntry)>, category: string, kind: string): Option<Result<Builder>>
  {
    var entry: Option<BuilderEntry> := Get(builders, category);
    match entry
    case Some(BuilderTable(table)) =>
      (match Get(table, kind)
       case Some(b) => Some(Success(b))
       case None => None)
    case Some(BuilderClass(b)) =>
      (match StringOffset(ClassName(b), kind)
       case Some(c) => if IsEmpty(c) then None else Some(Failure(Error(Fatal, ClassNotFound(c))))
       case None => None)
    case None => None
  }

  /** `createBuilder` over a builder table; the format and the variant play no part. */
  function BuilderFor(builders: seq<(string, BuilderEntry)>, category: string, kind: string): (r: Result<Builder>)
    ensures r.Failure? && r.error.kind == Runtime ==> r.error.message == NoBuilder(Lower(kind))
  {
    var kind := Lower(kind);
    match NestedBuilder(builders, category, kind)
    case Some(r) => r
    case None =>
      var entry: Option<BuilderEntry> := Get(builders, kind);
      match entry
      case Some(BuilderClass(b)) => Success(b)
      case Some(BuilderTable(_)) => Failure(Error(Fatal, NoClassName))
      case None => Failure(Error(Runtime, NoBuilder(kind)))
  }

  /** The table the factory's constructor registers. */
  const DefaultBuilders: seq<(string, BuilderEntry)> := [
    ("entity", BuilderClass(EntityBuilder)),
    ("repository", BuilderClass(RepositoryBuilder)),
    ("migration", BuilderClass(MigrationBuilder)),
    ("revertmigration", BuilderClass(MigrationBuilder)),
    (Project, BuilderTable([("symfony", ProjectScriptBuilder)]))]

  class ArtifactBuilderFactory {
    var builders: seq<(string, BuilderEntry)>

    constructor ()
      ensures builders == DefaultBuilders
    {
      builders := DefaultBuilders;
    }

    function CreateBuilder(a: Artifact): (r: Result<Builder>)
      reads this
      ensures r == BuilderFor(builders, a.category, a.kind)
    {
      BuilderFor(builders, a.category, a.kind)
    }
  }

  /**
   * What the default factory makes, for every type PHP does not read as an integer: the
   * [category][type] entry first (only project/symfony exists), then the [type] entry,
   * otherwise a RuntimeException naming the lower-cased type. Only category and type
   * matter, and the type only up to case.
   */
  lemma DefaultLookup(category: string, kind: string)
    requires IntegerString(Lower(kind)).None?
    ensures var t := Lower(kind);
      BuilderFor(DefaultBuilders, category, kind) ==
        if category == Project && t == "symfony" then Success(ProjectScriptBuilder)
        else if t == "entity" then Success(EntityBuilder)
        else if t == "repository" then Success(RepositoryBuilder)
        else if t in {"migration", "revertmigration"} then Success(MigrationBuilder)
        else if t == Project then Failure(Error(Fatal, NoClassName))
        else Failure(Error(Runtime, NoBuilder(t)))
  {
    var t := Lower(kind);
    DefaultEntry(category);
    DefaultEntry(t);
    NoOffsetUnderStringKey(t);
    SymfonyEntry(t);
    hide Lower, Get, StringOffset, ClassName, IntegerString;
  }

  /** A type that is not an integer string reads no character of a class name. */
  lemma NoOffsetUnderStringKey(t: string)
    requires IntegerString(t).None?
    ensures forall b :: StringOffset(ClassName(b), t) == None
  {
  }

  lemma SymfonyEntry(t: string)
    ensures Get([("symfony", ProjectScriptBuilder)], t) == if t == "symfony" then Some(ProjectScriptBuilder) else None
  {
  }

  lemma DefaultEntry(k: string)
    ensures Get(DefaultBuilders, k) ==
      if k == "entity" then Some(BuilderClass(EntityBuilder))
      else if k == "repository" then Some(BuilderClass(RepositoryBuilder))
      else if k in {"migration", "revertmigration"} then Some(BuilderClass(MigrationBuilder))
      else if k == Project then Some(BuilderTable([("symfony", ProjectScriptBuilder)]))
      else None
  {
    var d1 := DefaultBuilders[1..];
    var d2 := d1[1..];
    var d3 := d2[1..];
    var d4 := d3[1..];
    assert d4[1..] == [];
    assert Get(d4, k) == if k == Project then Some(BuilderTable([("symfony", ProjectScriptBuilder)])) else None;
    assert Get(d3, k) == if k == "revertmigration" then Some(BuilderClass(MigrationBuilder)) else Get(d4, k);
    assert Get(d2, k) == if k == "migration" then Some(BuilderClass(MigrationBuilder)) else Get(d3, k);
    assert Get(d1, k) == if k == "repository" then Some(BuilderClass(RepositoryBuilder)) else Get(d2, k);
  }

  /**
   * A type PHP reads as an integer offset into a class name registered under the
   * category makes PHP try to instantiate a one-character class, which fails.
   */
  lemma IntegerTypeUnderPlainBuilder()
    ensures BuilderFor(DefaultBuilders, "entity", "0") == Failure(Error(Fatal, ClassNotFound("C")))
    ensures BuilderFor(DefaultBuilders, "code", "0") == Failure(Error(Runtime, NoBuilder("0")))
  {
    assert Lower("0") == "0";
    hide *;
    NestedOffsetZero();
  }

  lemma NestedOffsetZero()
    ensures NestedBuilder(DefaultBuilders, "entity", "0") == Some(Failure(Error(Fatal, ClassNotFound("C"))))
    ensures NestedBuilder(DefaultBuilders, "code", "0") == None && Get(DefaultBuilders, "0") == None
  {
    hide Lower, Get, StringOffset, IntegerString, ClassName;
    DefaultEntry("entity");
    DefaultEntry("code");
    DefaultEntry("0");
    EntityBuilderOffsetZero();
  }

  lemma EntityBuilderOffsetZero()
    ensures StringOffset(ClassName(EntityBuilder), "0") == Some("C")
  {
    LTrimUntouched("0", IntWhitespace);
    LeadingDigitsOfDigits("0");
    assert "0"[..0] == [];
  }

  /**
   * A type with a leading zero is no array key, yet PHP reads it as an offset: under the
   * entity category '01' reads the second letter of the builder's class name.
   */
  lemma LeadingZeroTypeUnderPlainBuilder()
    ensures BuilderFor(DefaultBuilders, "entity", "01") == Failure(Error(Fatal, ClassNotFound("o")))
  {
    assert Lower("01") == "01";
    hide *;
    NestedUnderEntity();
  }

  lemma NestedUnderEntity()
    ensures NestedBuilder(DefaultBuilders, "entity", "01") == Some(Failure(Error(Fatal, ClassNotFound("o"))))
  {
    hide Lower, Get, StringOffset, IntegerString, ClassName;
    DefaultEntry("entity");
    EntityBuilderOffsetOne();
  }

  lemma EntityBuilderOffsetOne()
    ensures StringOffset(ClassName(EntityBuilder), "01") == Some("o")
  {
    hide IntegerString;
    LeadingZeroIsInteger();
    assert ClassName(EntityBuilder)[1] == 'o';
  }
}
