/** The results panel: the hashtag line `hashtags.map(h => '#' + h).join(' ')`
    with its copy button, and one block per caption with its own copy button. */
module ResultsDisplay {

  /** The fields of the generated content the panel reads. */
  datatype GeneratedContent = GeneratedContent(captions: seq<string>, hashtags: seq<string>)

  /** `Array.prototype.join`: nothing for no parts, the part itself for one,
      and the separator between neighbours otherwise. */
  function Join(parts: seq<string>, sep: string): string
  {
    if |parts| == 0 then ""
    else if |parts| == 1 then parts[0]
    else parts[0] + sep + Join(parts[1..], sep)
  }

  /** `String.prototype.split` with a one-character separator: the pieces
      between separators, always at least one. */
  function Split(s: string, sep: char): (r: seq<string>)
    ensures |r| > 0
  {
    if s == [] then [""]
    else
      var rest := Split(s[1..], sep);
      if s[0] == sep then [""] + rest else [[s[0]] + rest[0]] + rest[1..]
  }

  function WithHash(hashtags: seq<string>): (r: seq<string>)
    ensures |r| == |hashtags|
    ensures forall i :: 0 <= i < |r| ==> r[i] == "#" + hashtags[i]
  {
    seq(|hashtags|, i requires 0 <= i < |hashtags| => "#" + hashtags[i])
  }

  /** `allHashtags`, the text shown and copied. */
  function AllHashtags(hashtags: seq<string>): string
  {
    Join(WithHash(hashtags), " ")
  }

  function SumLengths(parts: seq<string>): nat
  {
    if parts == [] then 0 else |parts[0]| + SumLengths(parts[1..])
  }

  lemma {:induction false} JoinLength(parts: seq<string>, sep: string)
    requires |parts| > 0
    ensures |Join(parts, sep)| == SumLengths(parts) + (|parts| - 1) * |sep|
  {
    if |parts| > 1 {
      JoinLength(parts[1..], sep);
    } else {
      assert parts[1..] == [];
    }
  }

  lemma {:induction false} SumLengthsWithHash(hashtags: seq<string>)
    ensures SumLengths(WithHash(hashtags)) == SumLengths(hashtags) + |hashtags|
  {
    if hashtags != [] {
      assert WithHash(hashtags)[1..] == WithHash(hashtags[1..]);
      SumLengthsWithHash(hashtags[1..]);
    }
  }

  /** No hashtags give the empty text, one hashtag `h` gives `#h`, and n >= 1
      hashtags give the sum of (length + 1) over them plus n - 1 spaces. */
  lemma AllHashtagsShape(hashtags: seq<string>)
    ensures hashtags == [] ==> AllHashtags(hashtags) == ""
    ensures |hashtags| == 1 ==> AllHashtags(hashtags) == "#" + hashtags[0]
    ensures |hashtags| >= 1 ==> |AllHashtags(hashtags)| == SumLengths(hashtags) + |hashtags| + (|hashtags| - 1)
  {
    if |hashtags| >= 1 {
      JoinLength(WithHash(hashtags), " ");
      SumLengthsWithHash(hashtags);
    }
  }

  lemma {:induction false} SplitWithoutSeparator(s: string, sep: char)
    requires sep !in s
    ensures Split(s, sep) == [s]
  {
    if s != [] {
      assert s[0] != sep && sep !in s[1..];
      SplitWithoutSeparator(s[1..], sep);
      assert [s[0]] + s[1..] == s;
    }
  }

  lemma {:induction false} SplitAtFirstSeparator(a: string, sep: char, b: string)
    requires sep !in a
    ensures Split(a + [sep] + b, sep) == [a] + Split(b, sep)
  {
    if a == [] {
      assert a + [sep] + b == [sep] + b;
      assert ([sep] + b)[1..] == b;
    } else {
      assert (a + [sep] + b)[0] == a[0] != sep;
      assert (a + [sep] + b)[1..] == a[1..] + [sep] + b;
      assert sep !in a[1..];
      SplitAtFirstSeparator(a[1..], sep, b);
      assert [a[0]] + a[1..] == a;
    }
  }

  /** Splitting the joined text at the separator gives the parts back, when
      no part contains the separator. */
  lemma {:induction false} SplitJoin(parts: seq<string>, sep: char)
    requires |parts| > 0
    requires forall i :: 0 <= i < |parts| ==> sep !in parts[i]
    ensures Split(Join(parts, [sep]), sep) == parts
  {
    if |parts| == 1 {
      SplitWithoutSeparator(parts[0], sep);
    } else {
      SplitJoin(parts[1..], sep);
      SplitAtFirstSeparator(parts[0], sep, Join(parts[1..], [sep]));
    }
  }

  /** Drops the leading `#` of every piece. */
  function WithoutHash(pieces: seq<string>): (r: seq<string>)
    ensures |r| == |pieces|
  {
    seq(|pieces|, i requires 0 <= i < |pieces| => if |pieces[i]| > 0 && pieces[i][0] == '#' then pieces[i][1..] else pieces[i])
  }

  /** The hashtag text lists every hashtag, in order, each after its `#`:
      splitting it at spaces and dropping the marks gives the list back
      whenever there is at least one hashtag and none contains a space. */
  lemma AllHashtagsReadsBack(hashtags: seq<string>)
    requires |hashtags| > 0
    requires forall i :: 0 <= i < |hashtags| ==> ' ' !in hashtags[i]
    ensures Split(AllHashtags(hashtags), ' ') == WithHash(hashtags)
    ensures WithoutHash(Split(AllHashtags(hashtags), ' ')) == hashtags
  {
    var marked := WithHash(hashtags);
    forall i | 0 <= i < |marked|
      ensures ' ' !in marked[i]
    {
      assert marked[i] == "#" + hashtags[i];
    }
    SplitJoin(marked, ' ');
    assert forall i :: 0 <= i < |marked| ==> marked[i][1..] == hashtags[i];
  }

  /** One caption block: its React key, the caption shown, and the text its
      copy button copies. */
  datatype CaptionBlock = CaptionBlock(key: nat, shown: string, copyText: string)

  function CaptionBlocks(captions: seq<string>): (r: seq<CaptionBlock>)
    ensures |r| == |captions|
    ensures forall i :: 0 <= i < |r| ==> r[i].key == i && r[i].shown == captions[i] && r[i].copyText == captions[i]
  {
    seq(|captions|, i requires 0 <= i < |captions| => CaptionBlock(i, captions[i], captions[i]))
  }

  /** The panel: the preview, the hashtag line and what its copy button
      copies, and the caption blocks. */
  datatype Panel = Panel(imageUrl: string, hashtagText: string, hashtagCopyText: string, captionBlocks: seq<CaptionBlock>)

  function Render(content: GeneratedContent, imagePreviewUrl: string): Panel
  {
    var allHashtags := AllHashtags(content.hashtags);
    Panel(imagePreviewUrl, allHashtags, allHashtags, CaptionBlocks(content.captions))
  }

  function CopiedCaptions(blocks: seq<CaptionBlock>): (r: seq<string>)
    ensures |r| == |blocks|
  {
    seq(|blocks|, i requires 0 <= i < |blocks| => blocks[i].copyText)
  }

  /** The hashtag button copies exactly the hashtag text on display; the
      caption buttons, read in order, copy exactly the captions, and no two
      blocks share a key. */
  lemma RenderCopiesWhatItShows(content: GeneratedContent, imagePreviewUrl: string)
    ensures var p := Render(content, imagePreviewUrl);
      p.hashtagCopyText == p.hashtagText == AllHashtags(content.hashtags)
      && CopiedCaptions(p.captionBlocks) == content.captions
      && (forall i, j :: 0 <= i < j < |p.captionBlocks| ==> p.captionBlocks[i].key != p.captionBlocks[j].key)
      && p.imageUrl == imagePreviewUrl
  {
  }
}
