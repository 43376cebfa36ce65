/** The blog post table (`blogpost_service.rs`): insertion and the paginated feed query. */
module BlogpostService {
  import opened Common
  import opened Models

  /** Number of posts on one feed page. */
  const PAGE_SIZE: nat := 5

  /** Ordered by `dateOfPublication`, newest first (ties in any order). */
  predicate DateDescending(s: seq<BlogPost>)
  {
    forall i, j :: 0 <= i < j < |s| ==> s[i].dateOfPublication >= s[j].dateOfPublication
  }

  /** `ordered` is an order the query `ORDER BY dateOfPublication DESC` may produce over `rows`. */
  predicate FeedOrder(ordered: seq<BlogPost>, rows: seq<BlogPost>)
  {
    multiset(ordered) == multiset(rows) && DateDescending(ordered)
  }

  function Min(a: int, b: int): int { if a <= b then a else b }

  /** `LIMIT PAGE_SIZE OFFSET (page - 1) * PAGE_SIZE` over an ordered table. */
  function Page(ordered: seq<BlogPost>, page: nat): seq<BlogPost>
    requires page >= 1
  {
    var offset := (page - 1) * PAGE_SIZE;
    if |ordered| <= offset then [] else ordered[offset..Min(offset + PAGE_SIZE, |ordered|)]
  }

  /** Places `post` into a newest-first list, ahead of the posts of the same date. */
  function InsertByDate(post: BlogPost, s: seq<BlogPost>): seq<BlogPost>
    decreases |s|
  {
    if s == [] || post.dateOfPublication >= s[0].dateOfPublication then [post] + s
    else [s[0]] + InsertByDate(post, s[1..])
  }

  /** In a newest-first list no later post is newer than the first. */
  lemma HeadIsNewest(s: seq<BlogPost>)
    requires DateDescending(s) && s != []
    ensures forall x :: x in multiset(s[1..]) ==> x.dateOfPublication <= s[0].dateOfPublication
  {
    forall x | x in multiset(s[1..])
      ensures x.dateOfPublication <= s[0].dateOfPublication
    {
      var m :| 0 <= m < |s[1..]| && s[1..][m] == x;
      assert s[m + 1] == x;
    }
  }

  /** Prepending a post no older than every element keeps a list newest-first. */
  lemma PrependNewest(x: BlogPost, rest: seq<BlogPost>)
    requires DateDescending(rest)
    requires forall y :: y in multiset(rest) ==> y.dateOfPublication <= x.dateOfPublication
    ensures DateDescending([x] + rest)
  {
    var r := [x] + rest;
    forall i, j | 0 <= i < j < |r| ensures r[i].dateOfPublication >= r[j].dateOfPublication {
      if i == 0 {
        assert r[j] == rest[j - 1] && rest[j - 1] in multiset(rest);
      } else {
        assert r[i] == rest[i - 1] && r[j] == rest[j - 1];
      }
    }
  }

  /** Inserting adds exactly `post`. */
  lemma {:induction false} InsertByDateAdds(post: BlogPost, s: seq<BlogPost>)
    ensures multiset(InsertByDate(post, s)) == multiset(s) + multiset{post}
    decreases |s|
  {
    if s != [] && post.dateOfPublication < s[0].dateOfPublication {
      InsertByDateAdds(post, s[1..]);
      assert s == [s[0]] + s[1..];
    }
  }

  /** A post no older than the head of a newest-first list can go in front of it. */
  lemma InsertAtFrontSorted(post: BlogPost, s: seq<BlogPost>)
    requires DateDescending(s) && (s == [] || post.dateOfPublication >= s[0].dateOfPublication)
    ensures DateDescending([post] + s)
  {
    if s != [] {
      HeadIsNewest(s);
      assert s == [s[0]] + s[1..];
    }
    PrependNewest(post, s);
  }

  /** Inserting into a newest-first list keeps it newest-first and adds exactly `post`. */
  lemma {:induction false} InsertByDateSorted(post: BlogPost, s: seq<BlogPost>)
    requires DateDescending(s)
    ensures DateDescending(InsertByDate(post, s))
    ensures multiset(InsertByDate(post, s)) == multiset(s) + multiset{post}
    decreases |s|
  {
    InsertByDateAdds(post, s);
    if s == [] || post.dateOfPublication >= s[0].dateOfPublication {
      InsertAtFrontSorted(post, s);
    } else {
      var tail := s[1..];
      var rest := InsertByDate(post, tail);
      assert InsertByDate(post, s) == [s[0]] + rest;
      SliceOfOrdered(s, 1, |s|);
      assert s[1..|s|] == tail;
      InsertByDateSorted(post, tail);
      HeadIsNewest(s);
      assert multiset(rest) == multiset(tail) + multiset{post};
      PrependNewest(s[0], rest);
    }
  }

  /** One newest-first order of the table (the one that keeps insertion order among ties). */
  function SortByDate(rows: seq<BlogPost>): (r: seq<BlogPost>)
    ensures FeedOrder(r, rows)
    decreases |rows|
  {
    if rows == [] then []
    else
      var rest := SortByDate(rows[1..]);
      InsertKeepsFeedOrder(rows, rest);
      InsertByDate(rows[0], rest)
  }

  /** The step of `SortByDate`: inserting the first row into an order of the others. */
  lemma InsertKeepsFeedOrder(rows: seq<BlogPost>, rest: seq<BlogPost>)
    requires rows != [] && FeedOrder(rest, rows[1..])
    ensures FeedOrder(InsertByDate(rows[0], rest), rows)
  {
    InsertByDateSorted(rows[0], rest);
    assert rows == [rows[0]] + rows[1..];
  }

  /** The database table. */
  class PostTable {
    var rows: seq<BlogPost>

    constructor (initial: seq<BlogPost>)
      ensures rows == initial
    {
      rows := initial;
    }

    /** `create_blogpost`: inserts the post and returns the inserted rows — that one post. */
    method CreateBlogpost(post: BlogPost) returns (inserted: seq<BlogPost>)
      modifies this
      ensures rows == old(rows) + [post]
      ensures inserted == [post]
    {
      rows := rows + [post];
      inserted := [post];
    }

    /** `get_blogposts`: page `page` of the newest-first feed; the table is only read. */
    function GetBlogposts(page: nat): (r: seq<BlogPost>)
      reads this
      requires page >= 1
      ensures |r| <= PAGE_SIZE
      ensures DateDescending(r)
      ensures multiset(r) <= multiset(rows)
      ensures exists ordered :: FeedOrder(ordered, rows) && r == Page(ordered, page)
    {
      var ordered := SortByDate(rows);
      PageOfFeed(ordered, rows, page);
      Page(ordered, page)
    }
  }

  /** The concatenation of pages 1 to `n`. */
  function FirstPages(ordered: seq<BlogPost>, n: nat): seq<BlogPost>
  {
    if n == 0 then [] else FirstPages(ordered, n - 1) + Page(ordered, n)
  }

  /** Consecutive pages are contiguous and disjoint: pages 1 to `n` together are exactly
      the first `n * PAGE_SIZE` posts of the ordered table (or all of it). */
  lemma {:induction false} PagesTile(ordered: seq<BlogPost>, n: nat)
    ensures FirstPages(ordered, n) == ordered[..Min(n * PAGE_SIZE, |ordered|)]
  {
    if n > 0 {
      PagesTile(ordered, n - 1);
      var lo := Min((n - 1) * PAGE_SIZE, |ordered|);
      var hi := Min(n * PAGE_SIZE, |ordered|);
      assert ordered[..hi] == ordered[..lo] + ordered[lo..hi];
    }
  }

  /** Every post of the ordered table appears on exactly one page, at its position. */
  lemma OnePagePerPost(ordered: seq<BlogPost>, i: nat)
    requires i < |ordered|
    ensures i / PAGE_SIZE + 1 >= 1
    ensures i % PAGE_SIZE < |Page(ordered, i / PAGE_SIZE + 1)|
    ensures Page(ordered, i / PAGE_SIZE + 1)[i % PAGE_SIZE] == ordered[i]
  {
  }

  /** A slice of a newest-first list is newest-first and a sub-multiset of it. */
  lemma SliceOfOrdered(s: seq<BlogPost>, lo: nat, hi: nat)
    requires lo <= hi <= |s| && DateDescending(s)
    ensures DateDescending(s[lo..hi])
    ensures multiset(s[lo..hi]) <= multiset(s)
  {
    forall i, j | 0 <= i < j < hi - lo ensures s[lo..hi][i].dateOfPublication >= s[lo..hi][j].dateOfPublication {
      assert s[lo..hi][i] == s[lo + i] && s[lo..hi][j] == s[lo + j];
    }
    assert s == s[..lo] + s[lo..hi] + s[hi..];
  }

  /** Any feed page, in any admissible tie order, is newest-first and drawn from the table. */
  lemma PageOfFeed(ordered: seq<BlogPost>, rows: seq<BlogPost>, page: nat)
    requires FeedOrder(ordered, rows) && page >= 1
    ensures DateDescending(Page(ordered, page))
    ensures multiset(Page(ordered, page)) <= multiset(rows)
  {
    var offset := (page - 1) * PAGE_SIZE;
    if |ordered| > offset {
      SliceOfOrdered(ordered, offset, Min(offset + PAGE_SIZE, |ordered|));
    }
  }

  /** An empty table yields an empty first page. */
  lemma EmptyFeed(t: PostTable)
    requires t.rows == []
    ensures t.GetBlogposts(1) == []
  {
  }

  /** After one post was created in an empty table, page 1 holds exactly that post. */
  lemma SinglePostFeed(t: PostTable, post: BlogPost)
    requires t.rows == [post]
    ensures t.GetBlogposts(1) == [post]
  {
    assert [post][1..] == [];
  }
}
