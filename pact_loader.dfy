/**
 * `PactLoader`: pacts from a file or a directory tree, and from classpath-style resources
 * matched by a location pattern. Parsing a pact file is the contract library's business: a
 * regular file here simply holds the pact it parses to.
 */
module PactLoader {
  import opened Wrappers
  import opened PactModel
  import opened Strings
  import opened Streams

  const FileExtension := ".json"

  /** A path that exists: a regular file, a directory (which may refuse to be listed, making
      `listFiles` return null), or something that is neither. A null or missing path is
      `None`. */
  datatype FsNode =
    | RegularFile(name: string, pact: Pact)
    | Directory(name: string, listable: bool, children: seq<FsNode>)
    | Special(name: string)

  predicate IsPactFile(node: FsNode) {
    node.RegularFile? && EndsWith(node.name, FileExtension)
  }

  /** The `listFiles` filter: sub-directories when walking recursively, and regular files
      named `*.json`. */
  predicate Listed(node: FsNode, recursive: bool) {
    (node.Directory? && recursive) || IsPactFile(node)
  }

  /** `loadPactsByFile(file, recursive)`: nothing for a null or missing path, the one pact of
      a regular file whatever its name, and for a directory the pacts of its listed entries in
      listing order. */
  function LoadPactsByFile(file: Option<FsNode>, recursive: bool): (r: seq<Pact>)
    ensures file.None? ==> r == []
    ensures file.Some? && file.value.RegularFile? ==> r == [file.value.pact]
  {
    if file.None? then [] else Walk(file.value, recursive)
  }

  function Walk(node: FsNode, recursive: bool): seq<Pact>
    decreases node
  {
    match node
    case RegularFile(_, pact) => [pact]
    case Special(_) => []
    case Directory(_, listable, children) => if listable then WalkListed(children, recursive) else []
  }

  /** The entries the filter accepts, each walked in turn, results concatenated. */
  function WalkListed(children: seq<FsNode>, recursive: bool): seq<Pact>
    decreases children
  {
    if children == [] then []
    else (if Listed(children[0], recursive) then Walk(children[0], recursive) else [])
         + WalkListed(children[1..], recursive)
  }

  /** `loadPactsByFile(file)`: the recursive walk. */
  function LoadAllPactsByFile(file: Option<FsNode>): (r: seq<Pact>)
    ensures r == LoadPactsByFile(file, true)
  {
    LoadPactsByFile(file, true)
  }

  /** The pacts held by the regular files of a list, in order. */
  function PactsOf(nodes: seq<FsNode>): seq<Pact> {
    if nodes == [] then []
    else (if nodes[0].RegularFile? then [nodes[0].pact] else []) + PactsOf(nodes[1..])
  }

  lemma {:induction false} PactsOfAppend(a: seq<FsNode>, b: seq<FsNode>)
    ensures PactsOf(a + b) == PactsOf(a) + PactsOf(b)
  {
    if a == [] {
      assert a + b == b;
    } else {
      assert (a + b)[0] == a[0];
      assert (a + b)[1..] == a[1..] + b;
      PactsOfAppend(a[1..], b);
    }
  }

  /** The pact files of two lists joined are those of each, joined. */
  lemma PactFilesAppend(a: seq<FsNode>, b: seq<FsNode>)
    ensures PactsOf(Filter(a + b, IsPactFile)) == PactsOf(Filter(a, IsPactFile)) + PactsOf(Filter(b, IsPactFile))
  {
    FilterAppend(a, b, IsPactFile);
    PactsOfAppend(Filter(a, IsPactFile), Filter(b, IsPactFile));
  }

  lemma PactFilesSingle(c: FsNode)
    ensures PactsOf(Filter([c], IsPactFile)) == if IsPactFile(c) then [c.pact] else []
  {
  }

  /** Every entry below a list of directory entries, each before its own contents, in
      listing order; the contents of a directory that cannot be listed are not reached. */
  function Reachable(children: seq<FsNode>): seq<FsNode>
    decreases children
  {
    if children == [] then []
    else
      var c := children[0];
      [c] + (if c.Directory? && c.listable then Reachable(c.children) else []) + Reachable(children[1..])
  }

  /** A non-recursive walk of a directory yields exactly the pacts of its direct `*.json`
      files, in listing order. */
  lemma {:induction false} FlatWalk(children: seq<FsNode>)
    ensures WalkListed(children, false) == PactsOf(Filter(children, IsPactFile))
  {
    if children != [] {
      var c := children[0];
      FlatWalk(children[1..]);
      assert children == [c] + children[1..];
      PactFilesAppend([c], children[1..]);
      PactFilesSingle(c);
    }
  }

  /** A recursive walk yields exactly the pacts of the `*.json` files reachable below the
      directory, each once, in the order of a depth-first traversal. */
  lemma {:induction false} DeepWalk(children: seq<FsNode>)
    ensures WalkListed(children, true) == PactsOf(Filter(Reachable(children), IsPactFile))
    decreases children
  {
    if children != [] {
      var c := children[0];
      var below := if c.Directory? && c.listable then Reachable(c.children) else [];
      var rest := Reachable(children[1..]);
      assert Reachable(children) == [c] + (below + rest);
      DeepWalk(children[1..]);
      PactFilesAppend([c], below + rest);
      PactFilesAppend(below, rest);
      PactFilesSingle(c);
      if c.Directory? && c.listable {
        DeepWalk(c.children);
      }
    }
  }

  /** The two walks on a directory, stated on `loadPactsByFile`. */
  lemma DirectoryWalks(name: string, children: seq<FsNode>)
    ensures LoadPactsByFile(Some(Directory(name, true, children)), false)
         == PactsOf(Filter(children, IsPactFile))
    ensures LoadPactsByFile(Some(Directory(name, true, children)), true)
         == PactsOf(Filter(Reachable(children), IsPactFile))
    ensures LoadPactsByFile(Some(Directory(name, false, children)), true) == []
  {
    FlatWalk(children);
    DeepWalk(children);
  }

  /** The location pattern `loadPactsByResourceFolder` resolves, built step by step. */
  method LocationPattern(folder: string, recursive: bool) returns (pattern: string)
    ensures pattern == folder + (if recursive then "/**" else "") + "/*.json"
  {
    pattern := folder;
    if recursive {
      pattern := pattern + "/**";
    }
    pattern := pattern + "/*";
    pattern := pattern + FileExtension;
  }

  /** A located resource: its description, and the pact read from it, or `None` when opening
      it fails. */
  datatype Resource = Resource(description: string, content: Option<Pact>)

  /** `resourceToInStream` followed by reading the pact: a failure to open the resource is an
      `IllegalStateException` naming it. */
  function ReadResource(resource: Resource): (r: Result<Pact, Exception>)
    ensures r.Ok? <==> resource.content.Some?
    ensures r.Ok? ==> r.value == resource.content.value
    ensures r.Err? ==> r.error == IllegalState("Cannot load pact file: " + resource.description)
  {
    if resource.content.None? then Err(IllegalState("Cannot load pact file: " + resource.description))
    else Ok(resource.content.value)
  }

  /** Reading every resource of a list in order; the first that cannot be opened ends it. */
  function ReadAll(resources: seq<Resource>): (r: Result<seq<Pact>, Exception>)
    ensures r.Ok? <==> forall k :: 0 <= k < |resources| ==> resources[k].content.Some?
    ensures r.Ok? ==> |r.value| == |resources|
                      && forall k :: 0 <= k < |resources| ==> r.value[k] == resources[k].content.value
    ensures r.Err? ==> exists k :: 0 <= k < |resources| && resources[k].content.None?
                                   && (forall j :: 0 <= j < k ==> resources[j].content.Some?)
                                   && r.error == IllegalState("Cannot load pact file: " + resources[k].description)
  {
    if resources == [] then Ok([])
    else
      var head := ReadResource(resources[0]);
      if head.Err? then Err(head.error)
      else
        var tail := ReadAll(resources[1..]);
        if tail.Err? then
          assert forall k :: 1 <= k < |resources| ==> resources[k] == resources[1..][k - 1];
          Err(tail.error)
        else Ok([head.value] + tail.value)
  }

  /** `loadPactsByResourceFolder(folder, recursive)`. `resolve` stands for the resource
      pattern resolver: the resources matching a pattern, or `None` when resolving fails. */
  method LoadPactsByResourceFolder(folder: string, recursive: bool, resolve: string -> Option<seq<Resource>>)
    returns (r: Result<seq<Pact>, Exception>)
    ensures var pattern := folder + (if recursive then "/**" else "") + "/*.json";
            if resolve(pattern).None? then r == Err(IllegalState("Cannot load pact pactresources matching: " + pattern))
            else r == ReadAll(resolve(pattern).value)
  {
    var pattern := LocationPattern(folder, recursive);
    var resources := resolve(pattern);
    if resources.None? {
      return Err(IllegalState("Cannot load pact pactresources matching: " + pattern));
    }
    r := ReadAll(resources.value);
  }

  /** `loadPactsByResourceFolder(folder)`: the recursive pattern. */
  method LoadAllPactsByResourceFolder(folder: string, resolve: string -> Option<seq<Resource>>)
    returns (r: Result<seq<Pact>, Exception>)
    ensures var pattern := folder + "/**/*.json";
            if resolve(pattern).None? then r == Err(IllegalState("Cannot load pact pactresources matching: " + pattern))
            else r == ReadAll(resolve(pattern).value)
  {
    r := LoadPactsByResourceFolder(folder, true, resolve);
    assert folder + "/**" + "/*.json" == folder + "/**/*.json";
  }

  /** `loadPactByResource(location)`. `locate` stands for the resource loader, which always
      yields a resource; opening it may fail. */
  function LoadPactByResource(location: string, locate: string -> Resource): (r: Result<Pact, Exception>)
    ensures r.Ok? <==> locate(location).content.Some?
    ensures r.Ok? ==> r.value == locate(location).content.value
    ensures r.Err? ==> r.error == IllegalState("Cannot load pact file: " + locate(location).description)
  {
    ReadResource(locate(location))
  }

  /** Loading one located resource agrees with reading it as a one-element resource list, as
      the folder loader does: the same pact, or the same exception. */
  lemma LoadPactByResourceAsFolder(location: string, locate: string -> Resource)
    ensures var one := LoadPactByResource(location, locate);
            var all := ReadAll([locate(location)]);
            (one.Ok? <==> all.Ok?)
            && (one.Ok? ==> all.value == [one.value])
            && (one.Err? ==> all.error == one.error)
  {
  }
}
