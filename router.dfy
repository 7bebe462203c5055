/** The LINE message handlers: handle_text classifies the stripped text of a
    text message and composes the reply; handle_media answers image, video,
    sticker and location messages. Each handler produces the ordered list of
    messages sent back and records exactly one history entry. */
module Router {
  import opened Wrappers
  import opened PyString
  import opened Lookups
  import opened History

  /** An outgoing message, as built with the LINE SDK's *SendMessage classes. */
  datatype SendMessage =
    | TextSend(text: string)
    | StickerSend(packageId: string, stickerId: string)
    | ImageSend(originalContentUrl: string, previewImageUrl: string)
    | VideoSend(originalContentUrl: string, previewImageUrl: string)
    | LocationSend(title: string, address: string, latitude: real, longitude: real)

  /** A non-text message handed to handle_media. OtherMedia is the final
      else branch, which no registered message class reaches. */
  datatype Media =
    | ImageMessage
    | VideoMessage
    | StickerMessage
    | LocationMessage(coords: Coords)
    | OtherMedia

  /** What one handled event amounts to: the reply sent, and the user and
      bot texts recorded in the history. */
  datatype Turn = Turn(reply: seq<SendMessage>, user: string, bot: string)

  /** The branch handle_text takes for a stripped text. */
  datatype Intent =
    | StickerRequest
    | ImageRequest
    | VideoRequest
    | WeatherRequest(city: string)
    | LocationRequest
    | Chat(text: string)

  const StickerWords := ["貼圖", "sticker"]
  const ImageWords := ["圖片", "image"]
  const VideoWords := ["影片", "video"]
  const WeatherKeyword := "天氣"
  const LocationWords := ["地址", "位置", "location"]

  const MemeUrl := "https://en.meming.world/images/en/6/6e/Surprised_Pikachu.jpg"
  const VideoUrl := "https://ckexun.github.io/MemeBot/material/videoplayback.mp4"
  const FixedSticker := StickerSend("11537", "52002740")
  const FixedImage := ImageSend(MemeUrl, MemeUrl)
  const FixedVideo := VideoSend(VideoUrl, MemeUrl)
  const FixedLocation := LocationSend("台北 101", "信義路五段7號", 25.033964, 121.564468)

  const StickerPrompt := "使用者想收到貼圖，請給他一句可愛或幽默的回應。"
  const ImagePrompt := "使用者請求一張圖片，請用溫暖或有趣的語氣回覆。"
  const VideoPrompt := "使用者請求觀看影片，請用輕鬆語氣回覆。"
  const LocationPrompt := "傳送位置資訊給使用者，請自然回覆。"
  const ChatOpen := "使用者說：「"
  const ChatClose := "」，請自然回覆。"

  const ImageSentPrompt := "使用者傳了一張圖片，請用有趣的方式回覆。"
  const VideoSentPrompt := "使用者傳了一段影片，請給予自然的回應。"
  const StickerSentPrompt := "使用者傳來貼圖，請可愛回應。"
  const OtherSentPrompt := "使用者傳來媒體訊息，請自然回應。"

  /** The prompt for free chat quotes the user's text verbatim. */
  function ChatPrompt(t: string): (p: string)
    ensures |p| == |ChatOpen| + |t| + |ChatClose|
    ensures p[|ChatOpen|..|ChatOpen| + |t|] == t
  {
    ChatOpen + t + ChatClose
  }

  /** The city asked about: every "天氣" deleted (not only the leading one),
      then stripped, with the default city in place of an empty result. */
  function WeatherCity(t: string): (city: string)
    ensures city != ""
  {
    var c := Strip(RemoveAll(t, WeatherKeyword));
    if c == "" then DefaultCity else c
  }

  /** handle_text's if/elif chain over the stripped text t. */
  function Classify(t: string): (i: Intent)
    ensures i.Chat? ==> i.text == t
  {
    var low := Lower(t);
    if low in StickerWords then StickerRequest
    else if low in ImageWords then ImageRequest
    else if low in VideoWords then VideoRequest
    else if StartsWith(low, WeatherKeyword) then WeatherRequest(WeatherCity(t))
    else if t in LocationWords then LocationRequest
    else Chat(t)
  }

  /** The body of each branch of handle_text, for the stripped text t. */
  function Compose(b: Backends, intent: Intent, t: string): (turn: Turn)
    ensures 1 <= |turn.reply| <= 2
    ensures turn.reply[0] == TextSend(turn.bot)
    ensures turn.user == t
  {
    match intent
    case StickerRequest =>
      var text := Generate(b, StickerPrompt);
      Turn([TextSend(text), FixedSticker], t, text)
    case ImageRequest =>
      var text := Generate(b, ImagePrompt);
      Turn([TextSend(text), FixedImage], t, text)
    case VideoRequest =>
      var text := Generate(b, VideoPrompt);
      Turn([TextSend(text), FixedVideo], t, text)
    case WeatherRequest(city) =>
      var text := CwbWeather(b, city);
      Turn([TextSend(text)], t, text)
    case LocationRequest =>
      var text := Generate(b, LocationPrompt);
      Turn([TextSend(text), FixedLocation], t, text)
    case Chat(said) =>
      var text := Generate(b, ChatPrompt(said));
      Turn([TextSend(text)], t, text)
  }

  /** handle_text on the raw message text: one or two messages, the first
      of them text; the history records the stripped text and that first
      text's body. */
  function TextTurn(b: Backends, raw: string): (turn: Turn)
    ensures 1 <= |turn.reply| <= 2
    ensures turn.reply[0] == TextSend(turn.bot)
    ensures turn.user == Strip(raw)
  {
    var t := Strip(raw);
    Compose(b, Classify(t), t)
  }

  /** handle_media: a single text message; the history records a label for
      the kind of message, or the coordinates for a location. */
  function MediaTurn(b: Backends, m: Media): (turn: Turn)
    ensures turn.reply == [TextSend(turn.bot)]
    ensures turn.user != ""
  {
    match m
    case LocationMessage(c) =>
      var text := CwbWeather(b, CityFromCoords(b, c));
      Turn([TextSend(text)], "位置：(" + c.lat + ", " + c.lon + ")", text)
    case ImageMessage =>
      var text := Generate(b, ImageSentPrompt);
      Turn([TextSend(text)], "圖片訊息", text)
    case VideoMessage =>
      var text := Generate(b, VideoSentPrompt);
      Turn([TextSend(text)], "影片訊息", text)
    case StickerMessage =>
      var text := Generate(b, StickerSentPrompt);
      Turn([TextSend(text)], "貼圖訊息", text)
    case OtherMedia =>
      var text := Generate(b, OtherSentPrompt);
      Turn([TextSend(text)], "其他媒體訊息", text)
  }

  /** handle_text as a whole: compose the reply, then save one history
      entry for the user, stamped `now`. */
  method HandleText(store: HistoryStore, b: Backends, userId: string, raw: string, now: nat)
    returns (reply: seq<SendMessage>)
    requires store.Valid()
    modifies store
    ensures store.Valid()
    ensures reply == TextTurn(b, raw).reply
    ensures store.log == old(store.log)[userId :=
              old(store.EntriesOf(userId)) + [Entry(now, Strip(raw), reply[0].text)]]
    ensures store.users == if userId in old(store.log) then old(store.users) else old(store.users) + [userId]
  {
    var turn := TextTurn(b, raw);
    store.Save(userId, turn.user, turn.bot, now);
    reply := turn.reply;
  }

  /** handle_media as a whole: compose the reply, then save one history
      entry for the user, stamped `now`. */
  method HandleMedia(store: HistoryStore, b: Backends, userId: string, m: Media, now: nat)
    returns (reply: seq<SendMessage>)
    requires store.Valid()
    modifies store
    ensures store.Valid()
    ensures reply == MediaTurn(b, m).reply
    ensures store.log == old(store.log)[userId :=
              old(store.EntriesOf(userId)) + [Entry(now, MediaTurn(b, m).user, reply[0].text)]]
    ensures store.users == if userId in old(store.log) then old(store.users) else old(store.users) + [userId]
  {
    var turn := MediaTurn(b, m);
    store.Save(userId, turn.user, turn.bot, now);
    reply := turn.reply;
  }

  // ---------------------------------------------------------------------
  // Properties of the classification

  lemma WeatherKeywordCaseless()
    ensures forall i :: 0 <= i < |WeatherKeyword| ==> Caseless(WeatherKeyword[i])
  {
  }

  /** The triggers do not overlap, so the order of the chain decides
      nothing: each branch is taken exactly when its own test holds. The
      weather test is equally a test on the text before lowering. */
  lemma {:induction false} ClassifyTriggers(t: string)
    ensures Classify(t) == StickerRequest <==> Lower(t) in StickerWords
    ensures Classify(t) == ImageRequest <==> Lower(t) in ImageWords
    ensures Classify(t) == VideoRequest <==> Lower(t) in VideoWords
    ensures Classify(t).WeatherRequest? <==> StartsWith(t, WeatherKeyword)
    ensures Classify(t).WeatherRequest? ==> Classify(t).city == WeatherCity(t)
    ensures Classify(t) == LocationRequest <==> t in LocationWords
    ensures Classify(t).Chat? <==>
              && Lower(t) !in StickerWords + ImageWords + VideoWords
              && !StartsWith(t, WeatherKeyword)
              && t !in LocationWords
  {
    WeatherKeywordCaseless();
    StartsWithLower(t, WeatherKeyword);
    if StartsWith(t, WeatherKeyword) {
      KeywordTextIsNoMediaWord(t);
    }
    if t in LocationWords {
      LocationWordIsNoOtherTrigger(t);
    }
  }

  /** A text starting with the weather keyword is no sticker, image or video word. */
  lemma KeywordTextIsNoMediaWord(t: string)
    requires StartsWith(t, WeatherKeyword)
    ensures Lower(t) !in StickerWords + ImageWords + VideoWords
  {
    var low := Lower(t);
    assert low[0] == '天';
  }

  /** A location word meets no earlier test of the chain, even once lowered. */
  lemma LocationWordIsNoOtherTrigger(t: string)
    requires t in LocationWords
    ensures Lower(t) !in StickerWords + ImageWords + VideoWords
    ensures !StartsWith(Lower(t), WeatherKeyword)
  {
    LocationWordShape(t);
    var low := Lower(t);
    assert |low| == |t| && low[0] == LowerChar(t[0]);
    if low in StickerWords + ImageWords + VideoWords {
      MediaWordShape(low);
      assert false;
    }
    FirstCharBlocksPrefix(low, WeatherKeyword);
  }

  /** The location words are two ideographs starting with 地 or 位, or the
      eight-letter "location" starting with l. */
  lemma LocationWordShape(t: string)
    requires t in LocationWords
    ensures |t| == 2 || |t| == 8
    ensures t[0] == '地' || t[0] == '位' || t[0] == 'l'
  {
  }

  /** The sticker, image and video words are two ideographs starting with
      貼, 圖 or 影, or an ASCII word shorter than eight letters. */
  lemma MediaWordShape(w: string)
    requires w in StickerWords + ImageWords + VideoWords
    ensures |w| < 8
    ensures |w| == 2 ==> w[0] == '貼' || w[0] == '圖' || w[0] == '影'
  {
  }

  /** Exact case for the location words: "Location" is free chat. */
  lemma LocationIsCaseSensitive()
    ensures Classify("Location") == Chat("Location")
  {
    var t := "Location";
    var low := Lower(t);
    assert |low| == 8 && low[0] == 'l';
    if low in StickerWords + ImageWords + VideoWords {
      MediaWordShape(low);
      assert false;
    }
    FirstCharBlocksPrefix(low, WeatherKeyword);
    if t in LocationWords {
      LocationWordShape(t);
      assert false;
    }
  }

  /** While the sticker, image and video words are matched ignoring case. */
  lemma StickerIsCaseInsensitive()
    ensures Classify("STICKER") == StickerRequest
  {
    var t := "STICKER";
    var low := Lower(t);
    forall i | 0 <= i < |t| ensures low[i] == "sticker"[i] {
      assert 'A' <= t[i] <= 'Z';
    }
    assert low == "sticker";
  }

  /** The weather city for a keyword followed by a keyword-free remainder
      is that remainder, stripped (or the default city when blank). */
  lemma WeatherCityAfterKeyword(rest: string)
    requires !Contains(rest, WeatherKeyword)
    ensures WeatherCity(WeatherKeyword + rest) == if Strip(rest) == "" then DefaultCity else Strip(rest)
  {
    RemoveAllLeading(WeatherKeyword, rest);
    RemoveAllAbsent(rest, WeatherKeyword);
  }

  /** "天氣台中" asks about 台中. */
  lemma WeatherCityOfTaichung()
    ensures WeatherCity("天氣台中") == "台中"
  {
    var rest := "台中";
    assert !OccursAt(rest, WeatherKeyword, 0);
    assert !Contains(rest, WeatherKeyword);
    StripLeftOfTrimmed(rest);
    StripRightOfTrimmed(rest);
    WeatherCityAfterKeyword(rest);
    assert WeatherKeyword + rest == "天氣台中";
  }

  /** The bare keyword asks about the default city. */
  lemma WeatherCityOfKeywordAlone()
    ensures WeatherCity("天氣") == DefaultCity
  {
    RemoveAllLeading(WeatherKeyword, "");
    assert WeatherKeyword + "" == "天氣";
  }

  /** Every occurrence of the keyword goes, not only the leading one. */
  lemma WeatherCityDropsTrailingKeyword()
    ensures WeatherCity("天氣台中天氣") == "台中"
  {
    DeletesBothKeywords();
    StripLeftOfTrimmed("台中");
    StripRightOfTrimmed("台中");
  }

  /** Deleting 天氣 from 天氣台中天氣, step by step. */
  lemma DeletesBothKeywords()
    ensures RemoveAll("天氣台中天氣", WeatherKeyword) == "台中"
  {
    var k := WeatherKeyword;
    assert "天氣台中天氣" == k + "台中天氣";
    RemoveAllLeading(k, "台中天氣");
    assert "台中天氣" == ['台'] + "中天氣";
    assert !StartsWith("台中天氣", k);
    RemoveAllKeep('台', "中天氣", k);
    assert "中天氣" == ['中'] + "天氣";
    assert !StartsWith("中天氣", k);
    RemoveAllKeep('中', "天氣", k);
    assert "天氣" == k + "";
    RemoveAllLeading(k, "");
    var cut := RemoveAll("天氣台中天氣", k);
    assert cut == ['台'] + (['中'] + "");
  }

  /** A single pass of deletion can leave the keyword in the city. */
  lemma WeatherCityMayKeepKeyword()
    ensures WeatherCity("天氣天天氣氣") == "天氣"
  {
    DeletionLeavesKeyword();
    StripLeftOfTrimmed("天氣");
    StripRightOfTrimmed("天氣");
  }

  /** Deleting 天氣 from 天氣天天氣氣, step by step: the inner occurrence
      goes, and the characters around it close up into a new one. */
  lemma DeletionLeavesKeyword()
    ensures RemoveAll("天氣天天氣氣", WeatherKeyword) == "天氣"
  {
    var k := WeatherKeyword;
    assert "天氣天天氣氣" == k + "天天氣氣";
    RemoveAllLeading(k, "天天氣氣");
    assert "天天氣氣" == ['天'] + "天氣氣";
    assert !StartsWith("天天氣氣", k);
    RemoveAllKeep('天', "天氣氣", k);
    assert "天氣氣" == k + "氣";
    RemoveAllLeading(k, "氣");
    assert RemoveAll("氣", k) == "氣";
    var cut := RemoveAll("天氣天天氣氣", k);
    assert cut == ['天'] + "氣";
  }

  // ---------------------------------------------------------------------
  // Properties of the replies

  /** A sticker request gets a generated text and then the fixed sticker. */
  lemma TextTurnSticker(b: Backends, raw: string)
    requires Lower(Strip(raw)) in StickerWords
    ensures TextTurn(b, raw).reply == [TextSend(Generate(b, StickerPrompt)), FixedSticker]
  {
    ClassifyTriggers(Strip(raw));
  }

  /** An image request gets a generated text and then the fixed image. */
  lemma TextTurnImage(b: Backends, raw: string)
    requires Lower(Strip(raw)) in ImageWords
    ensures TextTurn(b, raw).reply == [TextSend(Generate(b, ImagePrompt)), FixedImage]
  {
    ClassifyTriggers(Strip(raw));
  }

  /** A video request gets a generated text and then the fixed video. */
  lemma TextTurnVideo(b: Backends, raw: string)
    requires Lower(Strip(raw)) in VideoWords
    ensures TextTurn(b, raw).reply == [TextSend(Generate(b, VideoPrompt)), FixedVideo]
  {
    ClassifyTriggers(Strip(raw));
  }

  /** A weather request gets a single text: the forecast for WeatherCity. */
  lemma TextTurnWeather(b: Backends, raw: string)
    requires StartsWith(Strip(raw), WeatherKeyword)
    ensures TextTurn(b, raw).reply == [TextSend(CwbWeather(b, WeatherCity(Strip(raw))))]
  {
    ClassifyTriggers(Strip(raw));
  }

  /** A location word gets a generated text and then Taipei 101. */
  lemma TextTurnLocation(b: Backends, raw: string)
    requires Strip(raw) in LocationWords
    ensures TextTurn(b, raw).reply == [TextSend(Generate(b, LocationPrompt)), FixedLocation]
  {
    ClassifyTriggers(Strip(raw));
  }

  /** Any other text gets a single text generated from a prompt quoting it. */
  lemma TextTurnChat(b: Backends, raw: string)
    requires Lower(Strip(raw)) !in StickerWords + ImageWords + VideoWords
    requires !StartsWith(Strip(raw), WeatherKeyword)
    requires Strip(raw) !in LocationWords
    ensures TextTurn(b, raw).reply == [TextSend(Generate(b, ChatPrompt(Strip(raw))))]
  {
    ClassifyTriggers(Strip(raw));
  }

  /** A location message is answered with the forecast for the geocoded
      city, and the history records the coordinates, not the city. */
  lemma MediaTurnLocation(b: Backends, c: Coords)
    ensures MediaTurn(b, LocationMessage(c)).bot == CwbWeather(b, CityFromCoords(b, c))
    ensures MediaTurn(b, LocationMessage(c)).user == "位置：(" + c.lat + ", " + c.lon + ")"
  {
  }

  /** The other kinds record their fixed labels. */
  lemma MediaTurnLabels(b: Backends)
    ensures MediaTurn(b, ImageMessage).user == "圖片訊息"
    ensures MediaTurn(b, VideoMessage).user == "影片訊息"
    ensures MediaTurn(b, StickerMessage).user == "貼圖訊息"
    ensures MediaTurn(b, OtherMedia).user == "其他媒體訊息"
  {
  }

  /** A model that always raises never breaks a reply: the text sent is the
      model fallback, except for a weather answer whose forecast could not
      be had, which is the weather fallback. */
  lemma {:induction false} FailingModelGivesFallback(b: Backends, raw: string)
    requires forall s, p :: b.llm(s, p) == None
    ensures TextTurn(b, raw).bot in {AiFallback, WeatherFallback}
    ensures !Classify(Strip(raw)).WeatherRequest? ==> TextTurn(b, raw).bot == AiFallback
  {
    var t := Strip(raw);
    var intent := Classify(t);
    ComposeWithFailingModel(b, intent, t);
  }

  lemma ComposeWithFailingModel(b: Backends, intent: Intent, t: string)
    requires forall s, p :: b.llm(s, p) == None
    ensures Compose(b, intent, t).bot in {AiFallback, WeatherFallback}
    ensures !intent.WeatherRequest? ==> Compose(b, intent, t).bot == AiFallback
  {
    match intent
    case WeatherRequest(city) =>
      if b.cwa(city).Some? {
        assert b.llm(Persona, WeatherPrompt(city, b.cwa(city).value)) == None;
      }
    case Chat(said) =>
      assert b.llm(Persona, ChatPrompt(said)) == None;
    case StickerRequest =>
      assert b.llm(Persona, StickerPrompt) == None;
    case ImageRequest =>
      assert b.llm(Persona, ImagePrompt) == None;
    case VideoRequest =>
      assert b.llm(Persona, VideoPrompt) == None;
    case LocationRequest =>
      assert b.llm(Persona, LocationPrompt) == None;
  }

  /** With a model that always raises, a media message is answered with the
      model fallback, or, for a location, with one of the two fallbacks. */
  lemma MediaTurnWithFailingModel(b: Backends, m: Media)
    requires forall s, p :: b.llm(s, p) == None
    ensures MediaTurn(b, m).bot in {AiFallback, WeatherFallback}
    ensures !m.LocationMessage? ==> MediaTurn(b, m).bot == AiFallback
  {
    match m
    case LocationMessage(c) =>
      var city := CityFromCoords(b, c);
      if b.cwa(city).Some? {
        assert b.llm(Persona, WeatherPrompt(city, b.cwa(city).value)) == None;
      }
    case ImageMessage =>
      assert b.llm(Persona, ImageSentPrompt) == None;
    case VideoMessage =>
      assert b.llm(Persona, VideoSentPrompt) == None;
    case StickerMessage =>
      assert b.llm(Persona, StickerSentPrompt) == None;
    case OtherMedia =>
      assert b.llm(Persona, OtherSentPrompt) == None;
  }
}
