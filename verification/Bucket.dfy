/** internal/storage/s3.go: an S3 bucket and the paginated deletion of a key prefix. */
module Bucket {
  import opened Basics
  import opened Listing

  predicate Passed(key: string, token: Option<string>) {
    token.Some? && (key == token.value || Less(key, token.value))
  }

  /** The keys a listing that resumes after `token` has still to return. */
  function Outstanding(keys: set<string>, prefix: string, token: Option<string>): set<string> {
    set k | k in keys && prefix <= k && !Passed(k, token)
  }

  /** The first of the outstanding keys, in order; the page is empty only when none is left. */
  predicate IsPage(all: set<string>, page: seq<string>, more: bool) {
    && Splits(page, all - Names(page), all)
    && (more <==> all - Names(page) != {})
    && (page == [] ==> all == {})
  }

  /** The objects that do not carry the prefix. */
  function Without(objects: map<string, string>, prefix: string): map<string, string> {
    map k | k in objects && !(prefix <= k) :: objects[k]
  }

  lemma PassedLast(keys: set<string>, prefix: string, token: Option<string>, page: seq<string>, more: bool, k: string)
    requires page != [] && IsPage(Outstanding(keys, prefix, token), page, more)
    requires prefix <= k && (k in keys || Passed(k, token))
    ensures Passed(k, Some(page[|page| - 1])) <==> Passed(k, token) || k in page
  {
    var last := page[|page| - 1];
    assert last in Names(page);
    if k in page {
      var i :| 0 <= i < |page| && page[i] == k;
    } else if Passed(k, token) {
      LessTotal(last, token.value);
      if k != token.value {
        LessTransitive(k, token.value, last);
      }
    } else {
      assert Less(last, k);
      LessIrreflexive(k);
      if Less(k, last) {
        LessTransitive(k, last, k);
      }
    }
  }

  /** After a page, the keys up to its last key are the ones passed before and the page itself. */
  lemma PageCoversToken(keys: set<string>, prefix: string, token: Option<string>, page: seq<string>, more: bool)
    requires page != [] && IsPage(Outstanding(keys, prefix, token), page, more)
    ensures forall k :: prefix <= k && (k in keys || Passed(k, token)) ==>
              (Passed(k, Some(page[|page| - 1])) <==> Passed(k, token) || k in page)
  {
    forall k | prefix <= k && (k in keys || Passed(k, token))
      ensures Passed(k, Some(page[|page| - 1])) <==> Passed(k, token) || k in page
    {
      PassedLast(keys, prefix, token, page, more, k);
    }
  }

  lemma SmallerSet(a: set<string>, b: set<string>)
    requires a < b
    ensures |a| < |b|
  {
    var extra := b - a;
    assert b == a + extra;
    assert extra == {} ==> b <= a;
  }

  /** Of the objects there were, exactly the matching keys up to the token are gone. */
  ghost predicate Swept(now: map<string, string>, was: map<string, string>, prefix: string, token: Option<string>) {
    && (forall k :: k in now <==> k in was && !(prefix <= k && Passed(k, token)))
    && (forall k :: k in now ==> now[k] == was[k])
  }

  lemma SweepPage(now: map<string, string>, was: map<string, string>, prefix: string, token: Option<string>,
                  page: seq<string>, more: bool)
    requires Swept(now, was, prefix, token)
    requires page != [] && IsPage(Outstanding(now.Keys, prefix, token), page, more)
    ensures var next, last := now - (set k | k in page), Some(page[|page| - 1]);
            && Swept(next, was, prefix, last)
            && (!more ==> Outstanding(next.Keys, prefix, last) == {})
            && |Outstanding(next.Keys, prefix, last)| < |Outstanding(now.Keys, prefix, token)|
  {
    var next, last := now - (set k | k in page), Some(page[|page| - 1]);
    PageCoversToken(now.Keys, prefix, token, page, more);
    var before := Outstanding(now.Keys, prefix, token);
    assert forall k :: k in page ==> k in before;
    assert page[0] in Names(page);
    assert Outstanding(next.Keys, prefix, last) == before - Names(page);
    SmallerSet(before - Names(page), before);
  }

  class S3Bucket {
    var objects: map<string, string>

    constructor ()
      ensures objects == map[]
    {
      objects := map[];
    }

    method Upload(key: string, body: string)
      modifies this
      ensures objects == old(objects)[key := body]
    {
      objects := objects[key := body];
    }

    method Delete(key: string)
      modifies this
      ensures objects == old(objects) - {key}
    {
      objects := objects - {key};
    }

    /** One ListObjectsV2 call: at most `size` keys in byte order, and whether more follow. */
    method ListPage(prefix: string, token: Option<string>, size: nat) returns (page: seq<string>, more: bool)
      requires size > 0
      ensures IsPage(Outstanding(objects.Keys, prefix, token), page, more) && |page| <= size
    {
      ghost var all := Outstanding(objects.Keys, prefix, token);
      var todo := set k | k in objects.Keys && prefix <= k && !Passed(k, token);
      page := [];
      while todo != {} && |page| < size
        invariant |page| <= size && Splits(page, todo, all)
        decreases |todo|
      {
        ghost var least := LeastExists(todo);
        var m :| m in todo && forall n :: n in todo ==> m == n || Less(m, n);
        MoveLeast(page, todo, all, m);
        page := page + [m];
        todo := todo - {m};
      }
      more := todo != {};
      assert page == [] ==> Names(page) == {};
    }

    method DeletePrefix(prefix: string, size: nat)
      requires size > 0
      modifies this
      ensures objects == Without(old(objects), prefix)
    {
      var token: Option<string> := None;
      var more := true;
      while more
        invariant Swept(objects, old(objects), prefix, token)
        invariant !more ==> Outstanding(objects.Keys, prefix, token) == {}
        decreases |Outstanding(objects.Keys, prefix, token)|, more
      {
        var page: seq<string>;
        page, more := ListPage(prefix, token, size);
        if page == [] {
          continue;
        }
        SweepPage(objects, old(objects), prefix, token, page, more);
        objects := objects - set k | k in page;
        token := Some(page[|page| - 1]);
      }
      assert forall k :: k in objects && prefix <= k ==> k in Outstanding(objects.Keys, prefix, token);
    }
  }
}
