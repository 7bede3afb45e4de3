/** The blog loader (src/lib/markdown.ts). The blog directory is given as
    its listing, in `readdirSync` order, with each file's front matter and
    markdown body already parsed; the markdown-to-HTML conversion is a
    parameter. */
module Blog {
  import opened Common
  import opened Text
  import opened Sorting

  /** The front-matter fields the loader reads; `slug` is absent when the
      front matter has none, and `date` is a timestamp. */
  datatype FrontMatter = FrontMatter(slug: Option<string>, title: string, date: int, excerpt: string, author: string)
  datatype BlogFile = BlogFile(fileName: string, data: FrontMatter, content: string)
  datatype BlogSummary = BlogSummary(slug: string, title: string, date: int, excerpt: string, author: string)
  datatype BlogPost = BlogPost(slug: string, contentHtml: string, title: string, date: int, excerpt: string, author: string)

  predicate IsMarkdown(fileName: string) {
    EndsWith(fileName, ".md")
  }

  /** `fileName.replace(/\.md$/, '')`. */
  function BareName(fileName: string): (name: string)
    ensures IsMarkdown(fileName) ==> name + ".md" == fileName
    ensures !IsMarkdown(fileName) ==> name == fileName
  {
    if IsMarkdown(fileName) then fileName[..|fileName| - 3] else fileName
  }

  /** A post's slug: its front-matter slug when that is a non-empty string,
      otherwise its file name without the extension. */
  function SlugOf(f: BlogFile): (slug: string)
    ensures f.data.slug.Some? && f.data.slug.value != [] ==> slug == f.data.slug.value
    ensures !(f.data.slug.Some? && f.data.slug.value != []) ==> slug == BareName(f.fileName)
    ensures IsMarkdown(f.fileName) ==> Matches(f, slug)
  {
    if f.data.slug.Some? && f.data.slug.value != [] then f.data.slug.value else BareName(f.fileName)
  }

  /** The markdown files of the listing, in listing order. */
  function MarkdownFiles(files: seq<BlogFile>): (md: seq<BlogFile>)
    ensures forall f :: f in md <==> f in files && IsMarkdown(f.fileName)
    ensures |md| <= |files|
  {
    if files == [] then []
    else (if IsMarkdown(files[0].fileName) then [files[0]] else []) + MarkdownFiles(files[1..])
  }

  /** The markdown files keep their listing order, and each appears as
      often as in the listing while every other file is dropped. */
  lemma {:induction false} MarkdownFilesInOrder(files: seq<BlogFile>)
    ensures IsSubsequence(MarkdownFiles(files), files)
    ensures forall f ::
      multiset(MarkdownFiles(files))[f] == (if IsMarkdown(f.fileName) then multiset(files)[f] else 0)
  {
    if files != [] {
      MarkdownFilesInOrder(files[1..]);
      var head := if IsMarkdown(files[0].fileName) then [files[0]] else [];
      var rest := MarkdownFiles(files[1..]);
      assert MarkdownFiles(files) == head + rest;
      assert files == [files[0]] + files[1..];
      assert multiset(files) == multiset{files[0]} + multiset(files[1..]);
      if head == [] {
        assert head + rest == rest;
        assert rest == [] || IsSubsequence(rest, files[1..]);
      } else {
        assert (head + rest)[1..] == rest;
      }
    }
  }

  lemma {:induction false} MarkdownFilesAppend(a: seq<BlogFile>, b: seq<BlogFile>)
    ensures MarkdownFiles(a + b) == MarkdownFiles(a) + MarkdownFiles(b)
  {
    if a != [] {
      MarkdownFilesAppend(a[1..], b);
      var head := if IsMarkdown(a[0].fileName) then [a[0]] else [];
      assert (a + b)[0] == a[0] && (a + b)[1..] == a[1..] + b;
      assert head + (MarkdownFiles(a[1..]) + MarkdownFiles(b)) == (head + MarkdownFiles(a[1..])) + MarkdownFiles(b);
    } else {
      assert a + b == b;
    }
  }

  function Summary(f: BlogFile): BlogSummary {
    BlogSummary(SlugOf(f), f.data.title, f.data.date, f.data.excerpt, f.data.author)
  }

  function Summaries(md: seq<BlogFile>): (s: seq<BlogSummary>)
    ensures |s| == |md| && forall i :: 0 <= i < |md| ==> s[i] == Summary(md[i])
  {
    seq(|md|, i requires 0 <= i < |md| => Summary(md[i]))
  }

  /** Sorting by the negated date puts the newest post first. */
  function NewestFirst(b: BlogSummary): int {
    -b.date
  }

  /** `getAllBlogs()`: every markdown post exactly once, newest first. */
  function GetAllBlogs(files: seq<BlogFile>): (index: seq<BlogSummary>)
    ensures |index| == |MarkdownFiles(files)|
    ensures multiset(index) == multiset(Summaries(MarkdownFiles(files)))
    ensures forall i, j :: 0 <= i < j < |index| ==> index[i].date >= index[j].date
  {
    var index := SortBy(Summaries(MarkdownFiles(files)), NewestFirst);
    NewestFirstDates(index);
    index
  }

  lemma NewestFirstDates(s: seq<BlogSummary>)
    requires SortedBy(s, NewestFirst)
    ensures forall i, j :: 0 <= i < j < |s| ==> s[i].date >= s[j].date
  {
    forall i, j | 0 <= i < j < |s| ensures s[i].date >= s[j].date {
      assert NewestFirst(s[i]) <= NewestFirst(s[j]);
    }
  }

  /** `getAllBlogSlugs()`: one slug per markdown file, in listing order. */
  function GetAllBlogSlugs(files: seq<BlogFile>): (slugs: seq<string>)
    ensures |slugs| == |MarkdownFiles(files)|
    ensures forall i :: 0 <= i < |slugs| ==> slugs[i] == SlugOf(MarkdownFiles(files)[i])
  {
    var md := MarkdownFiles(files);
    seq(|md|, i requires 0 <= i < |md| => SlugOf(md[i]))
  }

  /** The slug list follows the directory listing: an empty directory has
      none, and one more file at the end of the listing adds its slug at
      the end exactly when it is a markdown file. */
  lemma SlugsFollowListing(files: seq<BlogFile>, f: BlogFile)
    ensures GetAllBlogSlugs([]) == []
    ensures GetAllBlogSlugs(files + [f])
      == GetAllBlogSlugs(files) + (if IsMarkdown(f.fileName) then [SlugOf(f)] else [])
  {
    MarkdownFilesAppend(files, [f]);
    assert [f][1..] == [];
    var a := GetAllBlogSlugs(files + [f]);
    var b := GetAllBlogSlugs(files) + (if IsMarkdown(f.fileName) then [SlugOf(f)] else []);
    assert |a| == |b|;
    forall i | 0 <= i < |a| ensures a[i] == b[i] {
      if i < |MarkdownFiles(files)| {
        assert MarkdownFiles(files + [f])[i] == MarkdownFiles(files)[i];
      }
    }
  }

  function SlugsOf(s: seq<BlogSummary>): (slugs: seq<string>)
    ensures |slugs| == |s| && forall i :: 0 <= i < |s| ==> slugs[i] == s[i].slug
  {
    if s == [] then [] else [s[0].slug] + SlugsOf(s[1..])
  }

  lemma {:induction false} SlugsOfAppend(a: seq<BlogSummary>, b: seq<BlogSummary>)
    ensures SlugsOf(a + b) == SlugsOf(a) + SlugsOf(b)
  {
  }

  /** Rearranging summaries rearranges their slugs the same way. */
  lemma {:induction false} SlugsOfPermutation(a: seq<BlogSummary>, b: seq<BlogSummary>)
    requires multiset(a) == multiset(b)
    ensures multiset(SlugsOf(a)) == multiset(SlugsOf(b))
    decreases |a|
  {
    if a != [] {
      var x := a[0];
      assert x in multiset(b);
      var k :| 0 <= k < |b| && b[k] == x;
      var rest := b[..k] + b[k + 1..];
      assert b == b[..k] + [x] + b[k + 1..];
      assert a == [x] + a[1..];
      assert multiset(b) == multiset(b[..k]) + multiset{x} + multiset(b[k + 1..]);
      assert multiset(a) == multiset{x} + multiset(a[1..]);
      assert multiset(rest) == multiset(b[..k]) + multiset(b[k + 1..]);
      assert multiset(a[1..]) == multiset(a) - multiset{x};
      assert multiset(rest) == multiset(b) - multiset{x};
      SlugsOfPermutation(a[1..], rest);
      SlugsOfAppend(b[..k] + [x], b[k + 1..]);
      SlugsOfAppend(b[..k], [x]);
      SlugsOfAppend(b[..k], b[k + 1..]);
      SlugsOfAppend([x], a[1..]);
    } else {
      assert b == [];
    }
  }

  /** The index and the set of generated post pages agree: the slugs shown
      on the index are exactly the slugs pages are built for. */
  lemma IndexMatchesSlugs(files: seq<BlogFile>)
    ensures multiset(SlugsOf(GetAllBlogs(files))) == multiset(GetAllBlogSlugs(files))
  {
    var md := MarkdownFiles(files);
    SlugsOfPermutation(GetAllBlogs(files), Summaries(md));
    assert SlugsOf(Summaries(md)) == GetAllBlogSlugs(files);
  }

  /** The file `getBlogData` stops at for `slug`. */
  predicate Matches(f: BlogFile, slug: string) {
    IsMarkdown(f.fileName) && (f.data.slug == Some(slug) || BareName(f.fileName) == slug)
  }

  /** The first listed file matching `slug`, if any. */
  function FirstMatch(files: seq<BlogFile>, slug: string, from: nat): (m: Option<nat>)
    requires from <= |files|
    ensures m.Some? ==>
      (from <= m.value < |files| && Matches(files[m.value], slug)
       && forall k :: from <= k < m.value ==> !Matches(files[k], slug))
    ensures m.None? ==> forall k :: from <= k < |files| ==> !Matches(files[k], slug)
    decreases |files| - from
  {
    if from == |files| then None
    else if Matches(files[from], slug) then Some(from)
    else FirstMatch(files, slug, from + 1)
  }

  function PostOf(f: BlogFile, slug: string, toHtml: string -> string): BlogPost {
    BlogPost(slug, toHtml(f.content), f.data.title, f.data.date, f.data.excerpt, f.data.author)
  }

  function NotFound(slug: string): string {
    "Blog with slug " + slug + " not found"
  }

  /** `getBlogData(slug)`: scans the listing and renders the first markdown
      file whose front-matter slug or bare file name equals `slug`; the post
      carries the requested slug. */
  method GetBlogData(files: seq<BlogFile>, slug: string, toHtml: string -> string)
    returns (r: Result<BlogPost, string>)
    ensures r.Err? <==> forall k :: 0 <= k < |files| ==> !Matches(files[k], slug)
    ensures r.Err? ==> r.error == NotFound(slug)
    ensures r.Ok? ==>
      (r.value.slug == slug
       && r == Ok(PostOf(files[FirstMatch(files, slug, 0).value], slug, toHtml)))
  {
    var found: Option<nat> := None;
    ghost var first := FirstMatch(files, slug, 0);
    for i := 0 to |files|
      invariant found.None? ==> forall k :: 0 <= k < i ==> !Matches(files[k], slug)
      invariant found == None || found == first
    {
      if !IsMarkdown(files[i].fileName) {
        continue;
      }
      if files[i].data.slug == Some(slug) || BareName(files[i].fileName) == slug {
        found := Some(i);
        assert FirstMatch(files, slug, 0) == Some(i) by {
          FirstMatchAt(files, slug, 0, i);
        }
        break;
      }
    }
    if found.None? {
      return Err(NotFound(slug));
    }
    r := Ok(PostOf(files[found.value], slug, toHtml));
  }

  lemma {:induction false} FirstMatchAt(files: seq<BlogFile>, slug: string, from: nat, i: nat)
    requires from <= i < |files| && Matches(files[i], slug)
    requires forall k :: from <= k < i ==> !Matches(files[k], slug)
    ensures FirstMatch(files, slug, from) == Some(i)
    decreases i - from
  {
    if from < i {
      FirstMatchAt(files, slug, from + 1, i);
    }
  }

  /** Every slug a post page is generated for can be loaded. */
  lemma EverySlugResolves(files: seq<BlogFile>, slug: string)
    requires slug in GetAllBlogSlugs(files)
    ensures exists k :: 0 <= k < |files| && Matches(files[k], slug)
  {
    var md := MarkdownFiles(files);
    var j :| 0 <= j < |md| && GetAllBlogSlugs(files)[j] == slug;
    assert md[j] in md;
    var k :| 0 <= k < |files| && files[k] == md[j];
    assert Matches(files[k], slug);
  }
}
