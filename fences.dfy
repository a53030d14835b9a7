/** The clean-up both vision/text workers apply to the model's reply before
    parsing it as JSON:
    `text.strip().removeprefix("```json").removesuffix("```").strip()`. */
module Fences {
  import opened PyStr

  const OpenFence: string := "```json"
  const CloseFence: string := "```"

  function StripFences(text: string): (inner: string)
    ensures IsStripped(inner)
    ensures |inner| <= |text|
  {
    var trimmed := Strip(text);
    var unfenced := RemoveSuffix(RemovePrefix(trimmed, OpenFence), CloseFence);
    StripIsTrim(text);
    StripIsTrim(unfenced);
    Strip(unfenced)
  }

  /** A reply wrapped in a ```json fence, with any spaces around it, is
      reduced to the stripped text inside the fence. */
  lemma FencedReply(pre: string, body: string, post: string)
    requires AllSpace(pre) && AllSpace(post)
    ensures StripFences(pre + OpenFence + body + CloseFence + post) == Strip(body)
  {
    var fenced := OpenFence + body + CloseFence;
    assert pre + OpenFence + body + CloseFence + post == pre + fenced + post;
    assert fenced[0] == '`' && fenced[|fenced| - 1] == '`';
    StripPadded(pre, fenced, post);
    assert StartsWith(fenced, OpenFence);
    assert fenced[|OpenFence|..] == body + CloseFence;
    assert EndsWith(body + CloseFence, CloseFence);
    assert (body + CloseFence)[..|body|] == body;
  }

  /** A reply with neither fence is only trimmed. */
  lemma UnfencedReply(text: string)
    requires !StartsWith(Strip(text), OpenFence) && !EndsWith(Strip(text), CloseFence)
    ensures StripFences(text) == Strip(text)
  {
    StripIsTrim(text);
    StripPadded([], Strip(text), []);
    assert [] + Strip(text) + [] == Strip(text);
  }

  /** Only the opening fence that names `json` is removed: a reply opened by a
      bare ``` keeps it, and the JSON reader then sees the backticks. */
  lemma BareFenceKept(body: string)
    requires body != [] && !IsSpace(body[0]) && !IsSpace(body[|body| - 1])
    requires !StartsWith(body, "json")
    ensures StripFences(CloseFence + body + CloseFence) == CloseFence + body
  {
    var t := CloseFence + body + CloseFence;
    assert t[0] == '`' && t[|t| - 1] == '`';
    StripPadded([], t, []);
    assert [] + t + [] == t;
    var w := (body + CloseFence)[..4];
    assert t[3..7] == w;
    if |body| >= 4 {
      assert w == body[..4];
    } else {
      assert w[|body|] == '`';
    }
    assert w != "json";
    assert !StartsWith(t, OpenFence);
    assert t[..|t| - 3] == CloseFence + body;
    var inner := CloseFence + body;
    assert inner[0] == '`' && inner[|inner| - 1] == body[|body| - 1];
    StripPadded([], inner, []);
    assert [] + inner + [] == inner;
  }
}
