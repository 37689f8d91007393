// The file names the resource code generator (okt-gen-resource) derives from its
// arguments, the backup name it picks before overwriting a file, and the check of the
// resource type against its dictionary.

module GenResource {
  import opened Errors

  /** The characters of s other than c (strings.ReplaceAll(s, string(c), "")). */
  function Strip(s: string, c: char): (r: string)
    ensures c !in r
    ensures forall x :: x in r ==> x in s
    decreases |s|
  {
    if s == [] then [] else (if s[0] == c then [] else [s[0]]) + Strip(s[1..], c)
  }

  /** A string without c is kept as it is. */
  lemma {:induction false} StripAbsent(s: string, c: char)
    requires c !in s
    ensures Strip(s, c) == s
    decreases |s|
  {
    if s != [] {
      StripAbsent(s[1..], c);
      assert s == [s[0]] + s[1..];
    }
  }

  /** The part of s after its last c, all of s when there is none (the tail strings.LastIndex leaves). */
  function AfterLast(s: string, c: char): (r: string)
    ensures c !in r
    decreases |s|
  {
    if s == [] then []
    else if s[|s| - 1] == c then []
    else AfterLast(s[..|s| - 1], c) + [s[|s| - 1]]
  }

  lemma {:induction false} AfterLastSeparated(a: string, b: string, c: char)
    requires c !in b
    ensures AfterLast(a + [c] + b, c) == b
    decreases |b|
  {
    var s := a + [c] + b;
    if b == [] {
      assert s[|s| - 1] == c;
    } else {
      var b' := b[..|b| - 1];
      assert s[..|s| - 1] == a + [c] + b';
      AfterLastSeparated(a, b', c);
      assert b == b' + [b[|b| - 1]];
    }
  }

  /** The string without its trailing slashes. */
  function TrimTrailingSlashes(s: string): (r: string)
    ensures |r| <= |s| && r == s[..|r|]
    ensures r != [] ==> r[|r| - 1] != '/'
    decreases |s|
  {
    if s != [] && s[|s| - 1] == '/' then TrimTrailingSlashes(s[..|s| - 1]) else s
  }

  /**
   * path.Base: the last element of a slash-separated path, trailing slashes removed;
   * "." for the empty path and "/" for a path of slashes only.
   */
  function Base(path: string): string {
    if path == [] then "."
    else
      var p := AfterLast(TrimTrailingSlashes(path), '/');
      if p == [] then "/" else p
  }

  /** The last element of a path that names a file in a directory. */
  lemma BaseOfFileInDirectory(dir: string, file: string)
    requires file != [] && '/' !in file
    ensures Base(dir + "/" + file) == file
  {
    var path := dir + "/" + file;
    assert path[|path| - 1] == file[|file| - 1];
    assert TrimTrailingSlashes(path) == path;
    AfterLastSeparated(dir, file, '/');
  }

  /** strings.Split on a one-character separator: the pieces between the separators. */
  function Split(s: string, c: char): (pieces: seq<string>)
    ensures |pieces| >= 1
    ensures forall i :: 0 <= i < |pieces| ==> c !in pieces[i]
    ensures forall i, x :: 0 <= i < |pieces| && x in pieces[i] ==> x in s
    decreases |s|
  {
    if s == [] then [[]]
    else
      var rest := Split(s[1..], c);
      assert forall x :: x in s[1..] ==> x in s;
      if s[0] == c then [[]] + rest else [[s[0]] + rest[0]] + rest[1..]
  }

  /** strings.Join: the pieces with the separator between them. */
  function Join(pieces: seq<string>, c: char): string
    requires |pieces| >= 1
    decreases |pieces|
  {
    if |pieces| == 1 then pieces[0] else pieces[0] + [c] + Join(pieces[1..], c)
  }

  /** Splitting loses nothing: joining the pieces gives the string back. */
  lemma {:induction false} JoinSplit(s: string, c: char)
    ensures Join(Split(s, c), c) == s
    decreases |s|
  {
    if s != [] {
      var rest := Split(s[1..], c);
      JoinSplit(s[1..], c);
      if s[0] == c {
        assert Split(s, c)[1..] == rest;
      } else {
        var p := Split(s, c);
        assert p[1..] == rest[1..];
        if |rest| == 1 {
          assert Join(p, c) == [s[0]] + rest[0];
        } else {
          assert Join(p, c) == [s[0]] + rest[0] + [c] + Join(rest[1..], c);
        }
        assert s == [s[0]] + s[1..];
      }
    }
  }

  /** A string without the separator is one piece. */
  lemma {:induction false} SplitAbsent(s: string, c: char)
    requires c !in s
    ensures Split(s, c) == [s]
    decreases |s|
  {
    if s != [] {
      SplitAbsent(s[1..], c);
      assert s == [s[0]] + s[1..];
    }
  }

  /** A separator after a part without one splits off that part as the first piece. */
  lemma {:induction false} SplitFirst(a: string, b: string, c: char)
    requires c !in a
    ensures Split(a + [c] + b, c) == [a] + Split(b, c)
    decreases |a|
  {
    if a == [] {
      assert a + [c] + b == [c] + b;
      assert ([c] + b)[1..] == b;
    } else {
      SplitFirst(a[1..], b, c);
      assert (a + [c] + b)[1..] == a[1..] + [c] + b;
      assert a == [a[0]] + a[1..];
    }
  }

  /**
   * getResourceName: the last element of the path, cut at its dots; the piece before
   * the last dot (the only piece when there is no dot), without its dashes.
   */
  function ResourceName(inputFileName: string): (name: string)
    ensures '-' !in name
  {
    var pieces := Split(Base(inputFileName), '.');
    var index := if |pieces| >= 2 then |pieces| - 2 else 0;
    Strip(pieces[index], '-')
  }

  /** A manifest path dir/stem.ext gives its stem without dashes. */
  lemma ResourceNameOfManifest(dir: string, stem: string, ext: string)
    requires '/' !in stem && '/' !in ext && '.' !in stem && '.' !in ext
    ensures ResourceName(dir + "/" + stem + "." + ext) == Strip(stem, '-')
  {
    var file := stem + ['.'] + ext;
    assert '/' !in file;
    PathOfFile(dir, stem, ext);
    BaseOfFileInDirectory(dir, file);
    SplitStemAndExtension(stem, ext);
  }

  /** dir/stem.ext is the file stem.ext in the directory dir. */
  lemma PathOfFile(dir: string, stem: string, ext: string)
    ensures dir + "/" + stem + "." + ext == dir + "/" + (stem + ['.'] + ext)
  {
    var p, q := dir + "/" + stem + "." + ext, dir + "/" + (stem + ['.'] + ext);
    assert |p| == |q|;
    forall k | 0 <= k < |p|
      ensures p[k] == q[k]
    {
    }
  }

  /** A file name with one dot splits into its stem and its extension. */
  lemma SplitStemAndExtension(stem: string, ext: string)
    requires '.' !in stem && '.' !in ext
    ensures Split(stem + ['.'] + ext, '.') == [stem, ext]
  {
    SplitFirst(stem, ext, '.');
    SplitAbsent(ext, '.');
  }

  lemma {:induction false} AfterLastOfNoSeparator(s: string, c: char)
    requires c !in s
    ensures AfterLast(s, c) == s
    decreases |s|
  {
    if s != [] {
      AfterLastOfNoSeparator(s[..|s| - 1], c);
      assert s == s[..|s| - 1] + [s[|s| - 1]];
    }
  }

  /** A name without slash or dot is taken whole, dashes dropped. */
  lemma ResourceNameWithoutDot(name: string)
    requires name != [] && '/' !in name && '.' !in name
    ensures ResourceName(name) == Strip(name, '-')
  {
    assert name[|name| - 1] in name;
    assert TrimTrailingSlashes(name) == name;
    AfterLastOfNoSeparator(name, '/');
    SplitAbsent(name, '.');
  }

  /** The resource name has no dot, and no slash unless it is "/" itself (the base of a path of slashes). */
  lemma ResourceNameCharacters(inputFileName: string)
    ensures '.' !in ResourceName(inputFileName)
    ensures ResourceName(inputFileName) == "/" || '/' !in ResourceName(inputFileName)
  {
    var b := Base(inputFileName);
    if b == "/" {
      SplitAbsent(b, '.');
      assert Strip(b, '-') == "/";
    }
  }

  /**
   * Deriving the name again from a derived name changes nothing; the generator does so
   * when it names its output file after the name read from the manifest.
   */
  lemma ResourceNameIdempotent(inputFileName: string)
    ensures ResourceName(ResourceName(inputFileName)) == ResourceName(inputFileName)
  {
    var name := ResourceName(inputFileName);
    ResourceNameCharacters(inputFileName);
    if name == [] {
      ResourceNameOfEmpty();
    } else if name == "/" {
      ResourceNameOfSlashes();
    } else {
      ResourceNameWithoutDot(name);
      StripAbsent(name, '-');
    }
  }

  /** The empty path has base ".", whose pieces are both empty. */
  lemma ResourceNameOfEmpty()
    ensures ResourceName([]) == []
  {
    assert Base([]) == ".";
    assert Split(".", '.') == [[]] + Split([], '.');
  }

  /** A path of one slash has base "/", kept whole. */
  lemma ResourceNameOfSlashes()
    ensures ResourceName("/") == "/"
  {
    assert TrimTrailingSlashes("/") == [];
    assert Base("/") == "/";
    SplitAbsent("/", '.');
  }

  /** getOutputFileName: the resource name as a Go file of the current directory. */
  function OutputFileName(inputFileName: string): string {
    "./" + ResourceName(inputFileName) + ".go"
  }

  /** getStubFileName. */
  function StubFileName(resourceKind: string): string {
    resourceKind + "ResourceStub.go"
  }

  const BackupExtension: string := ".bak"

  /** The file name followed by k backup extensions. */
  function Backup(filename: string, k: nat): string
    decreases k
  {
    if k == 0 then filename else Backup(filename, k - 1) + BackupExtension
  }

  const TooManyBackupsMessage: string := "Too much backup files generated, please remove them."

  /**
   * getNewBackupName: the first of filename.bak, filename.bak.bak, ... (ten at most)
   * that names no existing file; fails when all ten exist.
   */
  method GetNewBackupName(filename: string, fileExists: string -> bool) returns (newName: string, err: Error)
    ensures err == Nil <==> exists k :: 1 <= k <= 10 && !fileExists(Backup(filename, k))
    ensures err == Nil ==> exists k :: (1 <= k <= 10 && newName == Backup(filename, k)
      && !fileExists(newName) && forall j :: 1 <= j < k ==> fileExists(Backup(filename, j)))
    ensures err != Nil ==> newName == "none" && err == Plain(TooManyBackupsMessage)
  {
    var ext := BackupExtension;
    newName := filename + ext;
    assert newName == Backup(filename, 1);
    var exist := fileExists(newName);
    if exist {
      var i := 0;
      while i < 9 && exist
        invariant 0 <= i <= 9
        invariant newName == Backup(filename, i + 1) && exist == fileExists(newName)
        invariant forall j :: 1 <= j <= i ==> fileExists(Backup(filename, j))
      {
        newName := newName + ext;
        exist := fileExists(newName);
        i := i + 1;
      }
      if exist {
        assert forall j :: 1 <= j <= 10 ==> fileExists(Backup(filename, j));
        return "none", Plain(TooManyBackupsMessage);
      }
    }
    return newName, Nil;
  }

  /** A dictionary entry: the Kubernetes kind, its API version and the optional helpers. */
  datatype ResourceEntry = ResourceEntry(kind: string, apiVersion: string, helper: string, mutationHelper: string)

  /** The resource types the generator knows (loadDico). */
  const ResourcesDico: map<string, ResourceEntry> := map[
    "ConfigMap" := ResourceEntry("ConfigMap", "core/v1", "", ""),
    "Deployment" := ResourceEntry("Deployment", "apps/v1", "", ""),
    "Ingress" := ResourceEntry("Ingress", "networking/v1beta1", "", ""),
    "Pod" := ResourceEntry("Pod", "core/v1", "", ""),
    "PodDisruptionBudget" := ResourceEntry("PodDisruptionBudget", "policy/v1beta1", "", ""),
    "Role" := ResourceEntry("Role", "rbac/v1", "", ""),
    "Secret" := ResourceEntry("Secret", "core/v1", "", "SecretMutationHelper"),
    "Service" := ResourceEntry("Service", "core/v1", "", ""),
    "ServiceAccount" := ResourceEntry("ServiceAccount", "core/v1", "", ""),
    "StatefulSet" := ResourceEntry("StatefulSet", "apps/v1", "StatefulSetHelper", "")]

  /** The dictionary entry of a type; an unknown type reads as the zero entry, as a Go map does. */
  function Lookup(resourceType: string): ResourceEntry {
    if resourceType in ResourcesDico then ResourcesDico[resourceType] else ResourceEntry("", "", "", "")
  }

  /** What generateStubFile decides before rendering: the stub file to write with its entry, or the error. */
  datatype StubPlan = Write(filename: string, entry: ResourceEntry) | Invalid(error: Error)

  function StubPlanFor(resourceType: string): StubPlan {
    var resInfo := Lookup(resourceType);
    if resInfo.kind == "" then Invalid(Plain("Invalid resource kind, not in dictionary: " + resourceType))
    else Write(StubFileName(resourceType), resInfo)
  }

  /** The ten type names of the dictionary. */
  predicate IsKnownType(t: string) {
    t == "ConfigMap" || t == "Deployment" || t == "Ingress" || t == "Pod" || t == "PodDisruptionBudget"
    || t == "Role" || t == "Secret" || t == "Service" || t == "ServiceAccount" || t == "StatefulSet"
  }

  /**
   * A type is refused exactly when it is none of the ten; a known type's stub file is named
   * after it, and the entry's kind is the type itself.
   */
  lemma StubPlanMeaning(resourceType: string)
    ensures StubPlanFor(resourceType).Invalid? <==> !IsKnownType(resourceType)
    ensures StubPlanFor(resourceType).Write? ==>
      StubPlanFor(resourceType).filename == resourceType + "ResourceStub.go"
      && StubPlanFor(resourceType).entry.kind == resourceType
  {
    assert ResourcesDico.Keys == {"ConfigMap", "Deployment", "Ingress", "Pod", "PodDisruptionBudget",
      "Role", "Secret", "Service", "ServiceAccount", "StatefulSet"};
  }
}
