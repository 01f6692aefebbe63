/**
 * The citation list a streamed answer keeps: append-only, one entry per url,
 * the first citation seen for a url kept and every later one with that url
 * ignored. `Dedup` is the list that results from offering a sequence of
 * citations one after another; the lemmas state what it guarantees.
 */
module Citations {
  import opened Js
  import opened Api

  /** `cs.some((c) => c.url === url)` */
  predicate HasUrl(cs: seq<Citation>, url: string) {
    exists i :: 0 <= i < |cs| && cs[i].url == url
  }

  /** No two entries share a url. */
  predicate UniqueUrls(cs: seq<Citation>) {
    forall i, j :: 0 <= i < j < |cs| ==> cs[i].url != cs[j].url
  }

  /** Offering one citation: pushed when its url is new, ignored otherwise. */
  function Offer(list: seq<Citation>, c: Citation): (r: seq<Citation>)
    ensures HasUrl(list, c.url) ==> r == list
    ensures !HasUrl(list, c.url) ==> r == list + [c]
  {
    if HasUrl(list, c.url) then list else list + [c]
  }

  /** The list after offering every citation of cs, in order, to `list`. */
  function OfferAll(list: seq<Citation>, cs: seq<Citation>): seq<Citation>
    decreases |cs|
  {
    if cs == [] then list else Offer(OfferAll(list, cs[..|cs| - 1]), cs[|cs| - 1])
  }

  /** The list after offering every citation of cs, in order, to an empty list. */
  function Dedup(cs: seq<Citation>): seq<Citation> {
    OfferAll([], cs)
  }

  /** Index of the first citation of cs with the given url. */
  function FirstIndex(cs: seq<Citation>, url: string): (k: nat)
    requires HasUrl(cs, url)
    ensures k < |cs| && cs[k].url == url
    ensures forall i :: 0 <= i < k ==> cs[i].url != url
    decreases |cs|
  {
    if cs[0].url == url then 0
    else
      assert HasUrl(cs[1..], url) by {
        var i :| 0 <= i < |cs| && cs[i].url == url;
        assert cs[1..][i - 1].url == url;
      }
      1 + FirstIndex(cs[1..], url)
  }

  /** Offering a sequence in two parts is offering the parts one after the other. */
  lemma {:induction false} OfferAllAppend(list: seq<Citation>, a: seq<Citation>, b: seq<Citation>)
    ensures OfferAll(list, a + b) == OfferAll(OfferAll(list, a), b)
    decreases |b|
  {
    if b == [] {
      assert a + b == a;
    } else {
      assert (a + b)[..|a + b| - 1] == a + b[..|b| - 1];
      OfferAllAppend(list, a, b[..|b| - 1]);
    }
  }

  /** Offering one more citation after a sequence of them. */
  lemma OfferAllSnoc(list: seq<Citation>, xs: seq<Citation>, c: Citation)
    ensures OfferAll(list, xs + [c]) == Offer(OfferAll(list, xs), c)
  {
    assert (xs + [c])[..|xs|] == xs;
  }

  /** One more citation offered. */
  lemma DedupSnoc(cs: seq<Citation>, c: Citation)
    ensures Dedup(cs + [c]) == Offer(Dedup(cs), c)
  {
    assert (cs + [c])[..|cs|] == cs;
  }

  /** Offering keeps the list free of duplicate urls. */
  lemma {:induction false} DedupUnique(cs: seq<Citation>)
    ensures UniqueUrls(Dedup(cs))
    decreases |cs|
  {
    if cs != [] {
      var init, c := cs[..|cs| - 1], cs[|cs| - 1];
      assert cs == init + [c];
      DedupSnoc(init, c);
      DedupUnique(init);
    }
  }

  lemma HasUrlSnoc(xs: seq<Citation>, c: Citation, url: string)
    ensures HasUrl(xs + [c], url) <==> HasUrl(xs, url) || c.url == url
  {
    var ys := xs + [c];
    if HasUrl(xs, url) {
      var i :| 0 <= i < |xs| && xs[i].url == url;
      assert ys[i].url == url;
    }
    if c.url == url {
      assert ys[|xs|].url == url;
    }
    if HasUrl(ys, url) {
      var i :| 0 <= i < |ys| && ys[i].url == url;
      if i < |xs| {
        assert xs[i].url == url;
      }
    }
  }

  /** A url is listed exactly when some offered citation carries it. */
  lemma {:induction false} DedupSameUrls(cs: seq<Citation>, url: string)
    ensures HasUrl(Dedup(cs), url) <==> HasUrl(cs, url)
    decreases |cs|
  {
    if cs != [] {
      var init, c := cs[..|cs| - 1], cs[|cs| - 1];
      assert cs == init + [c];
      DedupSnoc(init, c);
      DedupSameUrls(init, url);
      DedupSameUrls(init, c.url);
      HasUrlSnoc(init, c, url);
      HasUrlSnoc(Dedup(init), c, url);
    }
  }

  /** Every listed citation comes from the offered ones. */
  lemma {:induction false} DedupFrom(cs: seq<Citation>)
    ensures forall k :: 0 <= k < |Dedup(cs)| ==> Dedup(cs)[k] in cs
    decreases |cs|
  {
    if cs != [] {
      var init, c := cs[..|cs| - 1], cs[|cs| - 1];
      assert cs == init + [c];
      DedupSnoc(init, c);
      DedupFrom(init);
    }
  }

  /**
   * A later citation never changes the stored entry for its url: each listed
   * entry is the first offered citation with that url, title included.
   */
  lemma {:induction false} DedupFirstSeen(cs: seq<Citation>)
    ensures forall k :: 0 <= k < |Dedup(cs)| ==> HasUrl(cs, Dedup(cs)[k].url) && Dedup(cs)[k] == cs[FirstIndex(cs, Dedup(cs)[k].url)]
    decreases |cs|
  {
    if cs != [] {
      var init, c := cs[..|cs| - 1], cs[|cs| - 1];
      assert cs == init + [c];
      DedupSnoc(init, c);
      DedupFirstSeen(init);
      var d := Dedup(init);
      forall k | 0 <= k < |Dedup(cs)|
        ensures HasUrl(cs, Dedup(cs)[k].url) && Dedup(cs)[k] == cs[FirstIndex(cs, Dedup(cs)[k].url)]
      {
        var e := Dedup(cs)[k];
        if k < |d| {
          assert e == d[k];
          FirstIndexPrefix(init, c, e.url);
        } else {
          assert e == c && !HasUrl(d, c.url);
          DedupSameUrls(init, c.url);
          assert cs[|init|].url == c.url;
          FirstIndexAfter(init, c);
        }
      }
    }
  }

  /** The first index of a url already in a prefix stays where it was. */
  lemma FirstIndexPrefix(init: seq<Citation>, c: Citation, url: string)
    requires HasUrl(init, url)
    ensures HasUrl(init + [c], url) && FirstIndex(init + [c], url) == FirstIndex(init, url)
  {
    var cs := init + [c];
    var k := FirstIndex(init, url);
    assert cs[k].url == url;
    var m := FirstIndex(cs, url);
    assert m <= k;
  }

  /** A url seen only at the end has its first index there. */
  lemma FirstIndexAfter(init: seq<Citation>, c: Citation)
    requires !HasUrl(init, c.url)
    ensures HasUrl(init + [c], c.url) && FirstIndex(init + [c], c.url) == |init|
  {
    var cs := init + [c];
    assert cs[|init|].url == c.url;
    var m := FirstIndex(cs, c.url);
    assert forall i :: 0 <= i < |init| ==> cs[i].url == init[i].url;
  }

  /** Entries are in order of first appearance. */
  lemma {:induction false} DedupOrder(cs: seq<Citation>, i: nat, j: nat)
    requires i < j < |Dedup(cs)|
    ensures HasUrl(cs, Dedup(cs)[i].url) && HasUrl(cs, Dedup(cs)[j].url)
    ensures FirstIndex(cs, Dedup(cs)[i].url) < FirstIndex(cs, Dedup(cs)[j].url)
    decreases |cs|
  {
    var init, c := cs[..|cs| - 1], cs[|cs| - 1];
    assert cs == init + [c];
    DedupSnoc(init, c);
    var d := Dedup(init);
    var ei, ej := Dedup(cs)[i], Dedup(cs)[j];
    assert ei == d[i];
    DedupSameUrls(init, ei.url);
    assert HasUrl(d, ei.url) by { assert d[i].url == ei.url; }
    FirstIndexPrefix(init, c, ei.url);
    if j < |d| {
      assert ej == d[j];
      DedupOrder(init, i, j);
      DedupSameUrls(init, ej.url);
      assert HasUrl(d, ej.url) by { assert d[j].url == ej.url; }
      FirstIndexPrefix(init, c, ej.url);
    } else {
      assert ej == c && !HasUrl(d, c.url);
      DedupSameUrls(init, c.url);
      FirstIndexAfter(init, c);
    }
  }

  /** A citation whose url was already offered changes nothing: neither an entry nor a position. */
  lemma DedupSeenIsNoop(cs: seq<Citation>, c: Citation)
    requires HasUrl(cs, c.url)
    ensures Dedup(cs + [c]) == Dedup(cs)
  {
    DedupSnoc(cs, c);
    DedupSameUrls(cs, c.url);
  }

  /** The list only grows at its end: what was listed stays listed, in place. */
  lemma DedupExtends(cs: seq<Citation>, more: seq<Citation>)
    ensures |Dedup(cs)| <= |Dedup(cs + more)| && Dedup(cs + more)[..|Dedup(cs)|] == Dedup(cs)
  {
    OfferAllAppend([], cs, more);
    OfferAllGrows(Dedup(cs), more);
  }

  lemma {:induction false} OfferAllGrows(list: seq<Citation>, more: seq<Citation>)
    ensures |list| <= |OfferAll(list, more)| && OfferAll(list, more)[..|list|] == list
    decreases |more|
  {
    if more != [] {
      OfferAllGrows(list, more[..|more| - 1]);
    }
  }
}
