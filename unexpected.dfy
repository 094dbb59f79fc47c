/**
 * The unknown-tag watchdog of `src/parsing/unexpected.rs` (and its copy,
 * `check_unexpected`, in `src/parsing_utils.rs`): a tag that is known but
 * not parsed yet produces a warning, any other tag aborts the parse.
 */
module Unexpected {
  import opened Wrappers

  /** `UnexpectedTags`: the names of the tags that are known about but not parsed. */
  datatype UnexpectedTags = UnexpectedTags(tags: seq<string>)
  {
    /**
     * `check`: one warning for every stored tag equal to `current` (so a
     * tag listed twice warns twice), then a panic when there was none. The
     * stored list is a value and is never changed.
     */
    method Check(current: string) returns (warnings: nat, res: Outcome<()>)
      ensures warnings == multiset(tags)[current]
      ensures res == Panics <==> current !in tags
      ensures res != Panics ==> res == Returns(())
    {
      var expected := false;
      warnings := 0;
      for i := 0 to |tags|
        invariant warnings == multiset(tags[..i])[current]
        invariant expected <==> current in tags[..i]
      {
        assert tags[..i + 1] == tags[..i] + [tags[i]];
        if tags[i] == current {
          expected := true;
          warnings := warnings + 1;
        }
      }
      assert tags[..|tags|] == tags;
      if !expected {
        res := Panics;
      } else {
        res := Returns(());
      }
    }
  }
}
