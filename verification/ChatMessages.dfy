/** Plain messages of a history as Z.ai chat messages. */
module ChatMessages {
  import opened Prelude
  import opened Json

  // ----- the translation -----

  /** Z.ai has no developer role; it is a system instruction. */
  function MapRole(role: Option<string>): Option<string> {
    if role == Some("developer") || role == Some("system") then Some("system")
    else if role == Some("user") || role == Some("assistant") then role
    else None
  }

  /** The content parts read so far, as one text and as a list. */
  datatype Content = Content(text: string, list: seq<Value>, image: bool)

  const EMPTY := Content("", [], false)

  function TextPart(text: string): Value { Obj(map["type" := Str("text"), "text" := Str(text)]) }

  function ImagePart(url: string): Value {
    Obj(map["type" := Str("image_url"), "image_url" := Obj(map["url" := Str(url)])])
  }

  function AddText(c: Content, text: string): Content {
    c.(text := (if c.text == "" then "" else c.text + "\n") + text, list := c.list + [TextPart(text)])
  }

  /** One more part; images only where the model takes them. */
  function TakePart(images: bool, c: Content, part: Value): Option<Content> {
    var kind := AsStr(Get(part, "type"));
    if kind.None? then None
    else if kind.value in {"input_text", "output_text", "text", "summary_text"} then
      Some(AddText(c, TextOf(Get(part, "text"))))
    else if kind.value == "refusal" then Some(AddText(c, TextOf(Get(part, "refusal"))))
    else if kind.value == "input_image" then
      var url := AsStr(Get(part, "image_url"));
      if !images || url.None? then None else Some(c.(list := c.list + [ImagePart(url.value)], image := true))
    else None
  }

  function TakeParts(images: bool, parts: seq<Value>): Option<Content> {
    if parts == [] then Some(EMPTY)
    else
      match TakeParts(images, parts[..|parts| - 1])
      case None => None
      case Some(c) => TakePart(images, c, parts[|parts| - 1])
  }

  method CollectParts(images: bool, parts: seq<Value>) returns (r: Option<Content>)
    ensures r == TakeParts(images, parts)
  {
    var content := EMPTY;
    for i := 0 to |parts|
      invariant TakeParts(images, parts[..i]) == Some(content)
    {
      assert parts[..i + 1][..i] == parts[..i];
      var taken := TakePart(images, content, parts[i]);
      if taken.None? {
        RefusedStays(images, parts, i + 1);
        return None;
      }
      content := taken.value;
    }
    assert parts[..|parts|] == parts;
    return Some(content);
  }

  lemma {:induction false} RefusedStays(images: bool, parts: seq<Value>, i: nat)
    requires i <= |parts| && TakeParts(images, parts[..i]).None?
    ensures TakeParts(images, parts).None?
    decreases |parts|
  {
    if i == |parts| {
      assert parts[..i] == parts;
    } else {
      assert parts[..|parts| - 1][..i] == parts[..i];
      RefusedStays(images, parts[..|parts| - 1], i);
    }
  }

  /** Only user turns carry a list; every other keeps the plain text. */
  function TranslateContent(images: bool, role: string, content: Option<Value>): Option<Value> {
    if content.None? || content == Some(Null) then Some(Str(""))
    else if content.value.Str? then content
    else if content.value.Arr? then
      match TakeParts(images, content.value.items)
      case None => None
      case Some(c) => Some(if c.image && role == "user" then Arr(c.list) else Str(c.text))
    else None
  }

  function TranslateMessage(images: bool, item: Value): Option<Value> {
    match MapRole(AsStr(Get(item, "role")))
    case None => None
    case Some(role) =>
      match TranslateContent(images, role, Get(item, "content"))
      case None => None
      case Some(content) => Some(Obj(map["role" := Str(role), "content" := content]))
  }

  // ----- what it keeps, part by part -----

  predicate TextLike(part: Value) {
    var kind := AsStr(Get(part, "type"));
    kind == Some("input_text") || kind == Some("output_text") || kind == Some("text") || kind == Some("summary_text")
    || kind == Some("refusal")
  }

  predicate ImageLike(part: Value) { AsStr(Get(part, "type")) == Some("input_image") }

  /** The words of a part, where it has any. */
  function WordsOf(part: Value): string {
    TextOf(if AsStr(Get(part, "type")) == Some("refusal") then Get(part, "refusal") else Get(part, "text"))
  }

  predicate Understood(images: bool, part: Value) {
    TextLike(part) || (ImageLike(part) && images && AsStr(Get(part, "image_url")).Some?)
  }

  /** A written part says what the given one says. */
  predicate SaysPart(written: Value, part: Value) {
    if ImageLike(part) then
      AsStr(Get(written, "type")) == Some("image_url")
      && At(Get(written, "image_url"), "url") == Get(part, "image_url")
    else AsStr(Get(written, "type")) == Some("text") && Get(written, "text") == Some(Str(WordsOf(part)))
  }

  /** The words of the parts that have any, from the first that is not empty. */
  function Words(parts: seq<Value>): seq<string> {
    if parts == [] then []
    else
      var before, last := Words(parts[..|parts| - 1]), parts[|parts| - 1];
      if ImageLike(last) || (before == [] && WordsOf(last) == "") then before else before + [WordsOf(last)]
  }

  predicate HasImage(parts: seq<Value>) { exists i :: 0 <= i < |parts| && ImageLike(parts[i]) }

  lemma Between(a: string, b: string, c: string)
    ensures a + "\n" + (b + "\n" + c) == (a + "\n" + b) + "\n" + c
  {
  }

  lemma {:induction false} JoinAppend(words: seq<string>, word: string)
    ensures Join(words + [word], "\n") == if words == [] then word else Join(words, "\n") + "\n" + word
  {
    if words == [] {
      assert [] + [word] == [word];
    } else if |words| == 1 {
      assert (words + [word])[1..] == [word];
    } else {
      assert (words + [word])[1..] == words[1..] + [word];
      JoinAppend(words[1..], word);
      Between(words[0], Join(words[1..], "\n"), word);
    }
  }

  lemma {:induction false} WordsBegin(parts: seq<Value>)
    ensures Words(parts) != [] ==> Words(parts)[0] != ""
    ensures Join(Words(parts), "\n") == "" <==> Words(parts) == []
  {
    if parts != [] {
      WordsBegin(parts[..|parts| - 1]);
    }
    if Words(parts) != [] {
      JoinBegins(Words(parts));
    }
  }

  lemma JoinBegins(words: seq<string>)
    requires words != [] && words[0] != ""
    ensures Join(words, "\n") != ""
  {
  }

  lemma PartTaken(images: bool, c: Content, part: Value)
    ensures TakePart(images, c, part).Some? <==> Understood(images, part)
    ensures TakePart(images, c, part).Some? ==>
              var r := TakePart(images, c, part).value;
              && |r.list| == |c.list| + 1 && r.list[..|c.list|] == c.list && SaysPart(r.list[|c.list|], part)
              && r.image == (c.image || ImageLike(part))
              && r.text == if ImageLike(part) then c.text
                           else if c.text == "" then WordsOf(part) else c.text + "\n" + WordsOf(part)
  {
    if TextLike(part) {
      assert "" + WordsOf(part) == WordsOf(part);
    }
  }

  /** The content says what the parts say: as a list, one written part for
      each; as text, all words in order, a line each. */
  predicate Says(c: Content, parts: seq<Value>) {
    && |c.list| == |parts| && (forall i :: 0 <= i < |parts| ==> SaysPart(c.list[i], parts[i]))
    && (c.image <==> HasImage(parts)) && c.text == Join(Words(parts), "\n")
  }

  predicate AllUnderstood(images: bool, parts: seq<Value>) {
    forall i :: 0 <= i < |parts| ==> Understood(images, parts[i])
  }

  lemma AllStep(images: bool, parts: seq<Value>)
    requires parts != []
    ensures AllUnderstood(images, parts)
       <==> AllUnderstood(images, parts[..|parts| - 1]) && Understood(images, parts[|parts| - 1])
  {
    var front := parts[..|parts| - 1];
    assert forall i :: 0 <= i < |front| ==> front[i] == parts[i];
  }

  /** Content parts translate exactly when each is understood, and then all is
      said. */
  lemma {:induction false} PartsTaken(images: bool, parts: seq<Value>)
    ensures TakeParts(images, parts).Some? <==> AllUnderstood(images, parts)
    ensures TakeParts(images, parts).Some? ==> Says(TakeParts(images, parts).value, parts)
  {
    if parts != [] {
      var front, last := parts[..|parts| - 1], parts[|parts| - 1];
      PartsTaken(images, front);
      AllStep(images, parts);
      if TakeParts(images, front).Some? {
        var c := TakeParts(images, front).value;
        PartTaken(images, c, last);
        if Understood(images, last) {
          PartsStep(parts, c, TakePart(images, c, last).value);
        }
      }
    }
  }

  lemma PartsStep(parts: seq<Value>, c: Content, r: Content)
    requires parts != [] && Says(c, parts[..|parts| - 1])
    requires |r.list| == |c.list| + 1 && r.list[..|c.list|] == c.list && SaysPart(r.list[|c.list|], parts[|parts| - 1])
    requires r.image == (c.image || ImageLike(parts[|parts| - 1]))
    requires r.text == if ImageLike(parts[|parts| - 1]) then c.text
                       else if c.text == "" then WordsOf(parts[|parts| - 1])
                       else c.text + "\n" + WordsOf(parts[|parts| - 1])
    ensures Says(r, parts)
  {
    ListStep(parts, c, r);
    ImageStep(parts);
    WordsStep(parts);
  }

  lemma ListStep(parts: seq<Value>, c: Content, r: Content)
    requires parts != [] && Says(c, parts[..|parts| - 1])
    requires |r.list| == |c.list| + 1 && r.list[..|c.list|] == c.list && SaysPart(r.list[|c.list|], parts[|parts| - 1])
    ensures |r.list| == |parts| && forall i :: 0 <= i < |parts| ==> SaysPart(r.list[i], parts[i])
  {
    forall i | 0 <= i < |parts|
      ensures SaysPart(r.list[i], parts[i])
    {
      if i < |c.list| {
        assert r.list[i] == r.list[..|c.list|][i] && parts[i] == parts[..|parts| - 1][i];
      }
    }
  }

  lemma ImageStep(parts: seq<Value>)
    requires parts != []
    ensures HasImage(parts) <==> HasImage(parts[..|parts| - 1]) || ImageLike(parts[|parts| - 1])
  {
    var front := parts[..|parts| - 1];
    assert forall i :: 0 <= i < |front| ==> front[i] == parts[i];
    if HasImage(front) {
      var i :| 0 <= i < |front| && ImageLike(front[i]);
      assert ImageLike(parts[i]);
    }
    if HasImage(parts) && !ImageLike(parts[|parts| - 1]) {
      var i :| 0 <= i < |parts| && ImageLike(parts[i]);
      assert ImageLike(front[i]);
    }
  }

  lemma WordsStep(parts: seq<Value>)
    requires parts != []
    ensures var before, last := Join(Words(parts[..|parts| - 1]), "\n"), parts[|parts| - 1];
            Join(Words(parts), "\n")
            == if ImageLike(last) then before else if before == "" then WordsOf(last) else before + "\n" + WordsOf(last)
  {
    WordsBegin(parts[..|parts| - 1]);
    JoinAppend(Words(parts[..|parts| - 1]), WordsOf(parts[|parts| - 1]));
  }

  /** The role a message is sent under. */
  predicate SaysRole(sent: Option<Value>, role: Option<string>) {
    if role == Some("user") then sent == Some(Str("user"))
    else if role == Some("assistant") then sent == Some(Str("assistant"))
    else (role == Some("system") || role == Some("developer")) && sent == Some(Str("system"))
  }

  predicate KnownRole(role: Option<string>) {
    role == Some("user") || role == Some("assistant") || role == Some("system") || role == Some("developer")
  }

  predicate KnownContent(images: bool, content: Option<Value>) {
    content.Some? && content.value != Null && !content.value.Str? ==>
      content.value.Arr? && AllUnderstood(images, content.value.items)
  }

  /** What is sent for a message's content: its text; or for a list, the words
      of its parts, unless a user sends an image, which takes the list. */
  predicate SaysContent(sent: Option<Value>, role: Option<string>, content: Option<Value>) {
    if content.Some? && content.value.Arr? then
      var parts := content.value.items;
      if HasImage(parts) && role == Some("user") then
        sent.Some? && sent.value.Arr? && |sent.value.items| == |parts|
        && forall i :: 0 <= i < |parts| ==> SaysPart(sent.value.items[i], parts[i])
      else sent == Some(Str(Join(Words(parts), "\n")))
    else sent == Some(Str(TextOf(content)))
  }

  /** A message translates exactly when its role and content are known, and then
      says its role and content and nothing else. */
  lemma MessageByPlace(images: bool, item: Value)
    ensures TranslateMessage(images, item).Some?
       <==> KnownRole(AsStr(Get(item, "role"))) && KnownContent(images, Get(item, "content"))
    ensures TranslateMessage(images, item).Some? ==>
              var sent := TranslateMessage(images, item).value;
              && sent.Obj? && sent.fields.Keys == {"role", "content"}
              && SaysRole(Get(sent, "role"), AsStr(Get(item, "role")))
              && SaysContent(Get(sent, "content"), AsStr(Get(item, "role")), Get(item, "content"))
  {
    var content := Get(item, "content");
    if content.Some? && content.value.Arr? {
      PartsTaken(images, content.value.items);
    }
  }
}
