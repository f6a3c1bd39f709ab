/** Blog images: a post names its image by a path or a bare file name, and the
    image is looked up by file name among the images bundled from the blog
    image folder. The bundle is a map from asset path to image; what an image
    holds is left abstract. */
module BlogImages {
  import opened Wrappers
  import opened Strings

  const AssetFolder: string := "/src/images/blog/"

  /** `resolveBlogImage`: nothing for an empty source or one whose last
      `/`-segment is empty; otherwise the image bundled under the folder and
      that file name, if there is one. */
  function ResolveBlogImage<Image>(images: map<string, Image>, src: string): (r: Option<Image>)
    ensures src == "" ==> r.None?
    ensures src != "" && LastSegment(src, '/') == "" ==> r.None?
    ensures src != "" && LastSegment(src, '/') != "" ==>
              (r.Some? <==> AssetFolder + LastSegment(src, '/') in images)
    ensures r.Some? ==> r.value == images[AssetFolder + LastSegment(src, '/')]
  {
    if src == "" then None
    else
      var filename := LastSegment(src, '/');
      if filename == "" then None
      else if AssetFolder + filename in images then Some(images[AssetFolder + filename])
      else None
  }

  /** `blogImageExists`. */
  predicate BlogImageExists<Image>(images: map<string, Image>, src: string) {
    ResolveBlogImage(images, src).Some?
  }

  /** Only the file name counts: a path ending in a file name resolves like
      the bare file name, whatever directories precede it. */
  lemma PathAndNameAgree<Image>(images: map<string, Image>, dirs: string, name: string)
    requires name != "" && '/' !in name
    ensures ResolveBlogImage(images, dirs + "/" + name) == ResolveBlogImage(images, name)
  {
    LastSegmentAfterSeparator(dirs, '/', name);
    SplitNoSeparator(name, '/');
  }

  /** A source ending in `/` names no file and resolves to nothing. */
  lemma TrailingSlashResolvesNothing<Image>(images: map<string, Image>, dirs: string)
    ensures ResolveBlogImage(images, dirs + "/") == None
  {
    LastSegmentAfterSeparator(dirs, '/', "");
    assert dirs + "/" == dirs + ['/'] + "";
  }

  /** `getAllBlogImages`: each bundled asset path, in order, with the first
      occurrence of the folder removed. */
  function GetAllBlogImages(paths: seq<string>): (r: seq<string>)
    ensures |r| == |paths|
    ensures forall i :: 0 <= i < |paths| ==> r[i] == ReplaceFirst(paths[i], AssetFolder, "")
  {
    seq(|paths|, i requires 0 <= i < |paths| => ReplaceFirst(paths[i], AssetFolder, ""))
  }

  /** Every name listed for an asset of the folder resolves to that asset:
      the list and the lookup agree. */
  lemma ListedNamesResolve<Image>(images: map<string, Image>, paths: seq<string>, i: nat)
    requires i < |paths| && paths[i] in images
    requires exists name :: name != "" && '/' !in name && paths[i] == AssetFolder + name
    ensures ResolveBlogImage(images, GetAllBlogImages(paths)[i]) == Some(images[paths[i]])
  {
    var name :| name != "" && '/' !in name && paths[i] == AssetFolder + name;
    ReplaceFirstPrefix(AssetFolder, name);
    SplitNoSeparator(name, '/');
  }
}
