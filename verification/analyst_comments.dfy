/**
 * The analyst comment box of a slide (src/components/AnalystComments.js):
 * comments are kept per slide in the browser's local storage, modelled as a
 * map from storage key to text.
 */
module AnalystComments {

  const KeyPrefix: string := "analyst_comments_"

  /** The local-storage key of a slide's comments. */
  function StorageKey(slideId: string): (k: string)
    ensures |k| == |KeyPrefix| + |slideId|
    ensures k[..|KeyPrefix|] == KeyPrefix && k[|KeyPrefix|..] == slideId
  {
    KeyPrefix + slideId
  }

  /** Different slides never share a storage key. */
  lemma StorageKeyInjective(a: string, b: string)
    ensures StorageKey(a) == StorageKey(b) ==> a == b
  {
    if StorageKey(a) == StorageKey(b) {
      assert a == StorageKey(a)[|KeyPrefix|..];
    }
  }

  /** What the box shows after loading for `slideId`: a non-empty saved text, else what it showed before. */
  function Loaded(storage: map<string, string>, slideId: string, current: string): (r: string)
    ensures r == current || (StorageKey(slideId) in storage && r == storage[StorageKey(slideId)] && r != "")
  {
    var key := StorageKey(slideId);
    if key in storage && storage[key] != "" then storage[key] else current
  }

  /** A saved non-empty comment comes back when its slide is loaded again, and other slides are unaffected. */
  lemma SavedCommentReloads(storage: map<string, string>, slideId: string, text: string, other: string, current: string)
    ensures text != "" ==> Loaded(storage[StorageKey(slideId) := text], slideId, current) == text
    ensures other != slideId ==> Loaded(storage[StorageKey(slideId) := text], other, current) == Loaded(storage, other, current)
  {
    StorageKeyInjective(slideId, other);
  }

  class CommentBox {
    var slideId: string
    var comments: string
    var storage: map<string, string>

    /** Mounting: the text starts empty and the effect loads the slide's saved comments. */
    constructor (slideId: string, storage: map<string, string>)
      ensures this.slideId == slideId && this.storage == storage
      ensures comments == Loaded(storage, slideId, "")
    {
      this.slideId := slideId;
      this.storage := storage;
      comments := Loaded(storage, slideId, "");
    }

    /** The effect on a new `slideId`: saved comments replace the text, otherwise the text is kept. */
    method SlideIdChanged(newId: string)
      modifies this`slideId, this`comments
      ensures slideId == newId
      ensures comments == Loaded(storage, newId, old(comments))
    {
      slideId := newId;
      comments := Loaded(storage, slideId, comments);
    }

    /** Typing: the text is shown and saved under this slide's key, nothing else in storage changes. */
    method HandleCommentsChange(text: string)
      modifies this`comments, this`storage
      ensures comments == text
      ensures storage == old(storage)[StorageKey(slideId) := text]
      ensures forall k :: k in old(storage) && k != StorageKey(slideId) ==> k in storage && storage[k] == old(storage)[k]
    {
      comments := text;
      storage := storage[StorageKey(slideId) := text];
    }
  }
}
