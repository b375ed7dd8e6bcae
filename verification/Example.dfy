/** The action both example runs use. */
module Example {
  import opened Results
  import opened Rules

  const COMMENT: Action :=
    Action(AddComment, Some("i"), None, None, None, None, None, None, false, [], Some("c"), None, None, None)

  lemma CommentIsValid()
    ensures ValidAction(COMMENT) && ValidText("n", 300) && ValidId("o") && ValidId("r") && ValidId("k")
  {
    assert ValidText("n", 300) by { assert "n"[0] in "n"; }
    assert ValidText("c", 20_000) by { assert "c"[0] in "c"; }
    assert ValidId("i");
  }
}
