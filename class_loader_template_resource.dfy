/** Path handling of org.thymeleaf.templateresource.ClassLoaderTemplateResource:
    normalisation of the resource path at construction and resolution of a
    path relative to the directory of the current one. */
module TemplateResource {
  import opened Results

  /** The class loader a resource is looked up through, as an opaque value. */
  datatype ClassLoader = ClassLoader(id: nat)

  /** All fields of the resource are fixed at construction. */
  datatype ClassLoaderTemplateResource = ClassLoaderTemplateResource(
    classLoader: ClassLoader,
    path: string,
    characterEncoding: Option<string>)

  const PATH_EMPTY := "Resource Path cannot be null or empty"
  const RELATIVE_PATH_EMPTY := "Relative Path cannot be null or empty"

  /** `String.lastIndexOf(char)`: the position of the last occurrence of `c`
      in `s`, or -1 when there is none. */
  function LastIndexOf(s: string, c: char): (r: int)
    ensures -1 <= r < |s|
    ensures r == -1 <==> c !in s
    ensures r >= 0 ==> s[r] == c
    ensures forall j :: r < j < |s| ==> s[j] != c
  {
    if s == [] then -1
    else if s[|s| - 1] == c then |s| - 1
    else LastIndexOf(s[..|s| - 1], c)
  }

  /** The path the constructor stores: one leading '/' removed, if present. */
  function StripLeadingSlash(path: string): (r: string)
    requires path != []
    ensures path[0] == '/' ==> path == "/" + r
    ensures path[0] != '/' ==> r == path
  {
    if path[0] == '/' then path[1..] else path
  }

  /** The constructor: an empty path is rejected; otherwise the resource
      keeps the class loader and encoding and stores the normalised path. */
  function Create(classLoader: ClassLoader, path: string, characterEncoding: Option<string>): (r: Result<ClassLoaderTemplateResource>)
    ensures r.Err? <==> path == []
    ensures r.Err? ==> r.failure == IllegalArgument(PATH_EMPTY)
    ensures r.Ok? ==> r.value.classLoader == classLoader && r.value.characterEncoding == characterEncoding
    ensures r.Ok? ==> r.value.path == StripLeadingSlash(path)
  {
    if path == [] then Err(IllegalArgument(PATH_EMPTY))
    else Ok(ClassLoaderTemplateResource(classLoader, StripLeadingSlash(path), characterEncoding))
  }

  /** The name of a resource is its stored path, as `Create` left it. */
  function GetName(resource: ClassLoaderTemplateResource): (name: string)
    ensures name == resource.path
  {
    resource.path
  }

  /** The name of a resource is the path it was created with, less one
      leading '/' when there was one. */
  lemma NameIsNormalisedPath(classLoader: ClassLoader, path: string, characterEncoding: Option<string>)
    requires path != []
    ensures Create(classLoader, path, characterEncoding).Ok?
    ensures var name := GetName(Create(classLoader, path, characterEncoding).value);
      && (path[0] == '/' ==> path == "/" + name)
      && (path[0] != '/' ==> name == path)
  {
  }

  /** `createRelativePath`: the directory part of `path` (everything before
      its last '/'), then '/' unless `relativePath` starts with one, then
      `relativePath`; a path without '/' gives `relativePath` itself. */
  function CreateRelativePath(path: string, relativePath: string): (r: string)
    requires '/' in path ==> relativePath != []
    ensures '/' !in path ==> r == relativePath
    ensures |relativePath| <= |r| && r[|r| - |relativePath|..] == relativePath
  {
    var separatorPos := LastIndexOf(path, '/');
    if separatorPos != -1 then
      var directory := path[..separatorPos];
      if relativePath[0] != '/' then directory + "/" + relativePath else directory + relativePath
    else relativePath
  }

  /** An occurrence with no occurrence after it is the last one. */
  lemma LastIndexAt(s: string, c: char, i: nat)
    requires i < |s| && s[i] == c
    requires forall j :: i < j < |s| ==> s[j] != c
    ensures LastIndexOf(s, c) == i
  {
  }

  /** In directory + "/" + file, with no '/' in the file name, no '/'
      follows the one after the directory. */
  lemma OnlySeparatorAfterDirectory(directory: string, file: string)
    requires '/' !in file
    ensures var path := directory + "/" + file;
      && path[|directory|] == '/'
      && forall j :: |directory| < j < |path| ==> path[j] != '/'
  {
    var path := directory + "/" + file;
    forall j | |directory| < j < |path|
      ensures path[j] != '/'
    {
      assert path[j] == file[j - |directory| - 1];
    }
  }

  /** The last '/' of directory + "/" + file, when the file name has none,
      is the one just after the directory. */
  lemma LastSeparator(directory: string, file: string)
    requires '/' !in file
    ensures LastIndexOf(directory + "/" + file, '/') == |directory|
  {
    OnlySeparatorAfterDirectory(directory, file);
    LastIndexAt(directory + "/" + file, '/', |directory|);
  }

  /** Resolution against a path split as directory, '/', file name: the
      file name is replaced, exactly one '/' separates the directory from
      the relative path. */
  lemma CreateRelativePathInDirectory(directory: string, file: string, relativePath: string)
    requires '/' !in file && relativePath != []
    ensures var rest := if relativePath[0] == '/' then relativePath[1..] else relativePath;
      CreateRelativePath(directory + "/" + file, relativePath) == directory + "/" + rest
  {
    var path := directory + "/" + file;
    var k := LastIndexOf(path, '/');
    LastSeparator(directory, file);
    assert path[..k] == directory;
    if relativePath[0] == '/' {
      assert relativePath == "/" + relativePath[1..];
      assert directory + relativePath == directory + "/" + relativePath[1..];
    }
  }

  /** A leading '/' on the relative path makes no difference once the base
      path has a directory part. */
  lemma LeadingSlashIgnored(path: string, relativePath: string)
    requires '/' in path && relativePath != [] && relativePath[0] != '/'
    ensures CreateRelativePath(path, "/" + relativePath) == CreateRelativePath(path, relativePath)
  {
    var k := LastIndexOf(path, '/');
    assert path == path[..k] + "/" + path[k + 1..];
    CreateRelativePathInDirectory(path[..k], path[k + 1..], "/" + relativePath);
    CreateRelativePathInDirectory(path[..k], path[k + 1..], relativePath);
    assert ("/" + relativePath)[1..] == relativePath;
  }

  /** Resolving against a sibling file name is the same as resolving against
      the original path: the directory part is kept. */
  lemma SiblingResolution(path: string, sibling: string, relativePath: string)
    requires '/' !in sibling && sibling != [] && relativePath != []
    ensures CreateRelativePath(CreateRelativePath(path, sibling), relativePath)
         == CreateRelativePath(path, relativePath)
  {
    if '/' in path {
      var k := LastIndexOf(path, '/');
      var directory := path[..k];
      assert path == directory + "/" + path[k + 1..];
      CreateRelativePathInDirectory(directory, path[k + 1..], sibling);
      CreateRelativePathInDirectory(directory, sibling, relativePath);
      CreateRelativePathInDirectory(directory, path[k + 1..], relativePath);
    }
  }

  /** `relative`: an empty relative path is rejected; otherwise a new
      resource on the same class loader and encoding, created from the
      resolved path (whose leading '/' the constructor drops again). */
  function Relative(resource: ClassLoaderTemplateResource, relativePath: string): (r: Result<ClassLoaderTemplateResource>)
    ensures r.Err? <==> relativePath == []
    ensures r.Err? ==> r.failure == IllegalArgument(RELATIVE_PATH_EMPTY)
    ensures r.Ok? ==> r.value.classLoader == resource.classLoader
    ensures r.Ok? ==> r.value.characterEncoding == resource.characterEncoding
    ensures r.Ok? ==> GetName(r.value) == StripLeadingSlash(CreateRelativePath(resource.path, relativePath))
  {
    if relativePath == [] then Err(IllegalArgument(RELATIVE_PATH_EMPTY))
    else Create(resource.classLoader, CreateRelativePath(resource.path, relativePath), resource.characterEncoding)
  }
}
