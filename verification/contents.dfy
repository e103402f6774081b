/**
 * Message content: an ordered list of items, each a text fragment, an image
 * reference or raw JSON bytes. The implementation of this container lives in
 * a package that is not part of this model; only the operations the core uses
 * are defined here.
 */
module Contents {

  datatype Item = Text(text: string) | ImageURL(url: string) | Json(data: string)

  type Content = seq<Item>

  /** The text an item contributes to the readable text of a content list. */
  function ItemText(item: Item): string {
    if item.Text? then item.text else ""
  }

  /** The text of all Text items, in order. */
  function TextOf(c: Content): string {
    if |c| == 0 then "" else TextOf(c[..|c| - 1]) + ItemText(c[|c| - 1])
  }

  lemma TextOfSnoc(c: Content, x: Item)
    ensures TextOf(c + [x]) == TextOf(c) + ItemText(x)
  {
    assert (c + [x])[..|c|] == c;
  }

  /**
   * Content.Append: adds a streamed text fragment, extending a trailing Text
   * item or else starting a new one. Earlier items are never touched and the
   * readable text grows by exactly the fragment.
   */
  function Append(c: Content, fragment: string): (r: Content)
    ensures TextOf(r) == TextOf(c) + fragment
    ensures |c| <= |r| <= |c| + 1
    ensures forall i :: 0 <= i < |c| - 1 ==> r[i] == c[i]
  {
    if |c| > 0 && c[|c| - 1].Text? then
      var init := c[..|c| - 1];
      var last := c[|c| - 1];
      assert c == init + [last];
      TextOfSnoc(init, last);
      TextOfSnoc(init, Text(last.text + fragment));
      init + [Text(last.text + fragment)]
    else
      TextOfSnoc(c, Text(fragment));
      c + [Text(fragment)]
  }

  /** content.FromText. */
  function FromText(text: string): Content {
    [Text(text)]
  }

  /** content.FromRawJSON. */
  function FromRawJSON(data: string): Content {
    [Json(data)]
  }

  /** Content.AddImage. */
  function AddImage(c: Content, url: string): Content {
    c + [ImageURL(url)]
  }
}
