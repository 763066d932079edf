/**
 * The study-platforms page (ResourceManager.tsx): the add-platform form
 * with its url normalisation, the grid of link resources, and the verse
 * banner that moves to the next verse every minute. The fade animation
 * and the favicon lookup are not modelled; `now` stands for `Date.now()`.
 */
module Resources {
  import opened Wrappers
  import opened Domain
  import opened Text
  import Seqs
  import Arith

  /** The verses the banner cycles through. */
  const Verses: seq<string> := [
    "وَأَن لَّيْسَ لِلْإِنسَانِ إِلَّا مَا سَعَىٰ",
    "وَاصْبِرْ لِحُكْمِ رَبِّكَ فَإِنَّكَ بِأَعْيُنِنَا",
    "إِنَّ مَعَ الْعُسْرِ يُسْرًا",
    "لَا يُكَلِّفُ اللَّهُ نَفْسًا إِلَّا وُسْعَهَا",
    "وَاسْتَعِينُوا بِالصَّبْرِ وَالصَّلَاةِ",
    "فَإِذَا عَزَمْتَ فَتَوَكَّلْ عَلَى اللَّهِ",
    "وَلَسَوْفَ يُعْطِيكَ رَبُّكَ فَتَرْضَىٰ",
    "إِنَّ اللَّهَ مَعَ الصَّابِرِينَ",
    "وَقُل رَّبِّ زِدْنِي عِلْمًا",
    "فَمَن يَعْمَلْ مِثْقَالَ ذَرَّةٍ خَيْرًا يَرَهُ",
    "وَقَالُوا الْحَمْدُ لِلَّهِ الَّذِي أَذْهَبَ عَنَّا الْحَزَنَ"
  ]

  /** The scheme given to an address typed without one. */
  const Https: string := "https://"

  /** An address not starting with "http" gets "https://" in front; any other is kept. */
  function NormalizeUrl(url: string): (r: string)
    ensures StartsWith(r, "http")
    ensures StartsWith(url, "http") ==> r == url
    ensures !StartsWith(url, "http") ==> r == Https + url
  {
    if StartsWith(url, "http") then url
    else
      var r := Https + url;
      assert r[..4] == "http";
      r
  }

  /** Normalising a normalised address changes nothing. */
  lemma NormalizeIdempotent(url: string)
    ensures NormalizeUrl(NormalizeUrl(url)) == NormalizeUrl(url)
  {
  }

  /** The typed address is always the tail of the stored one. */
  lemma NormalizeKeepsAddress(url: string)
    ensures var r := NormalizeUrl(url);
      |url| <= |r| && r[|r| - |url|..] == url
  {
    var r := NormalizeUrl(url);
    if !StartsWith(url, "http") {
      assert r[|Https|..] == url;
    }
  }

  predicate IsLink(r: ResourceItem) {
    r.kind == Link
  }

  /** The platform grid: the link resources, in their stored order. */
  function LinkResources(resources: seq<ResourceItem>): (r: seq<ResourceItem>)
    ensures forall x :: x in r <==> x in resources && x.kind == Link
  {
    Seqs.Filter(resources, IsLink)
  }

  /** A newly added link appears last in the grid, after the links that were there. */
  lemma AddedLinkShownLast(resources: seq<ResourceItem>, item: ResourceItem)
    requires item.kind == Link
    ensures LinkResources(resources + [item]) == LinkResources(resources) + [item]
  {
    Seqs.FilterConcat(resources, [item], IsLink);
    assert Seqs.Filter([item], IsLink) == [item] by {
      assert [item][1..] == [];
    }
  }

  /** The banner's next verse: `(i + 1) % 11`. */
  function NextVerse(i: nat): (r: nat)
    ensures r < |Verses|
    ensures i < |Verses| - 1 ==> r == i + 1
    ensures i == |Verses| - 1 ==> r == 0
  {
    (i + 1) % |Verses|
  }

  function VerseAfter(i: nat, n: nat): nat {
    if n == 0 then i else NextVerse(VerseAfter(i, n - 1))
  }

  /** After `n` minutes from verse `i` the banner shows verse `(i + n) % 11`, so every verse comes round. */
  lemma {:induction false} VerseRotation(i: nat, n: nat)
    requires i < |Verses|
    ensures VerseAfter(i, n) == (i + n) % |Verses|
  {
    if n > 0 {
      VerseRotation(i, n - 1);
      Arith.ModSucc(i + n - 1, |Verses|);
    }
  }

  /** The platform a successful add hands to `addResource`: id from `now`, the title, a link, the normalised url. */
  function NewPlatform(now: int, title: string, url: string): (r: ResourceItem)
    ensures r.kind == Link && r.title == title && r.url == Some(NormalizeUrl(url)) && r.courseId.None?
    ensures now >= 0 ==> ParseInt(r.id) == Some(now)
  {
    if now >= 0 then ParseIntNatToString(now); ResourceItem(IntText(now), title, Link, Some(NormalizeUrl(url)), None)
    else ResourceItem(IntText(now), title, Link, Some(NormalizeUrl(url)), None)
  }

  /** The page's own state: the add form, whether it is open, and the banner's verse. */
  class ResourcePanel {
    var title: string
    var url: string
    var isAdding: bool
    var verseIndex: nat

    constructor ()
      ensures title == "" && url == "" && !isAdding && verseIndex == 0
    {
      title := "";
      url := "";
      isAdding := false;
      verseIndex := 0;
    }

    /** The header button opens or closes the form. */
    method ToggleForm()
      modifies this`isAdding
      ensures isAdding == !old(isAdding)
    {
      isAdding := !isAdding;
    }

    /** The cancel button, and the empty-grid button that opens the form. */
    method SetAdding(open: bool)
      modifies this`isAdding
      ensures isAdding == open
    {
      isAdding := open;
    }

    /** Typing a title: only the title changes. */
    method SetTitle(newTitle: string)
      modifies this`title
      ensures title == newTitle
    {
      title := newTitle;
    }

    /** Typing an address: only the address changes. */
    method SetUrl(newUrl: string)
      modifies this`url
      ensures url == newUrl
    {
      url := newUrl;
    }

    /**
     * `handleAddPlatform`: with a title and an address, returns the new
     * platform, clears the form and closes it; with either empty, returns
     * nothing and leaves the form as it is.
     */
    method AddPlatform(now: int) returns (added: Option<ResourceItem>)
      modifies this`title, this`url, this`isAdding
      ensures old(title) == "" || old(url) == "" ==>
        added.None? && title == old(title) && url == old(url) && isAdding == old(isAdding)
      ensures old(title) != "" && old(url) != "" ==>
        added == Some(NewPlatform(now, old(title), old(url))) && title == "" && url == "" && !isAdding
    {
      if title != "" && url != "" {
        var formattedUrl := url;
        if !StartsWith(formattedUrl, "http") {
          formattedUrl := Https + formattedUrl;
        }
        added := Some(ResourceItem(IntText(now), title, Link, Some(formattedUrl), None));
        title := "";
        url := "";
        isAdding := false;
      } else {
        added := None;
      }
    }

    /** The minute timer: the banner moves to the next verse. */
    method AdvanceVerse()
      modifies this`verseIndex
      ensures verseIndex == NextVerse(old(verseIndex))
    {
      verseIndex := (verseIndex + 1) % |Verses|;
    }
  }
}
