/** The two catalog schemas the retrieval core reads: conference sessions (table `sessions`,
    string ids, two embedding columns) and products (table `items`, integer ids, one embedding
    column). Each row turns into a dictionary for the response's `data_points` and into the
    one-line text that is shown to the chat model or embedded. */
module Items {
  import opened Common

  const SessionsTable := "sessions"
  const ProductsTable := "items"

  /** A row of the `sessions` table. */
  datatype SessionItem = SessionItem(
    id: string,
    title: string,
    description: string,
    speakers: seq<string>,
    tracks: seq<string>,
    day: string,
    time: string,
    mode: string,
    embeddingAda002: Option<seq<PyFloat>>,
    embeddingNomic: Option<seq<PyFloat>>)

  /** A row of the `items` table. */
  datatype ProductItem = ProductItem(
    id: int,
    kind: string,          // the `type` column
    brand: string,
    name: string,
    description: string,
    price: PyFloat,
    embedding: Option<seq<PyFloat>>)

  const SessionEmbeddingColumns: set<string> := {"embedding_ada002", "embedding_nomic"}
  const SessionColumns: set<string> :=
    {"id", "title", "description", "speakers", "tracks", "day", "time", "mode"} + SessionEmbeddingColumns
  const ProductColumns: set<string> := {"id", "type", "brand", "name", "description", "price", "embedding"}

  function StrList(xs: seq<string>): (v: Value)
    ensures v.List? && |v.items| == |xs|
  {
    List(seq(|xs|, i requires 0 <= i < |xs| => Str(xs[i])))
  }

  /** A nullable vector column as the value the row object holds. */
  function VectorValue(e: Option<seq<PyFloat>>): Value
  {
    match e
    case None => Null
    case Some(xs) => List(seq(|xs|, i requires 0 <= i < |xs| => Float(xs[i])))
  }

  /** Every column of a session row, by column name. */
  function SessionColumnMap(x: SessionItem): (d: map<string, Value>)
    ensures d.Keys == SessionColumns
  {
    map[
      "id" := Str(x.id), "title" := Str(x.title), "description" := Str(x.description),
      "speakers" := StrList(x.speakers), "tracks" := StrList(x.tracks),
      "day" := Str(x.day), "time" := Str(x.time), "mode" := Str(x.mode),
      "embedding_ada002" := VectorValue(x.embeddingAda002),
      "embedding_nomic" := VectorValue(x.embeddingNomic)]
  }

  /** `Item.to_dict` of the session schema: every column; the two embedding columns only when
      asked for (`get` with a default finds the column, so a NULL embedding stays None). */
  function SessionToDict(x: SessionItem, includeEmbedding: bool): (d: map<string, Value>)
    ensures d.Keys == if includeEmbedding then SessionColumns else SessionColumns - SessionEmbeddingColumns
    ensures forall k :: k in d ==> d[k] == SessionColumnMap(x)[k]
  {
    var all := SessionColumnMap(x);
    if includeEmbedding then all else all - SessionEmbeddingColumns
  }

  /** Every column of a product row, by column name. */
  function ProductColumnMap(x: ProductItem): (d: map<string, Value>)
    ensures d.Keys == ProductColumns
  {
    map[
      "id" := Int(x.id), "type" := Str(x.kind), "brand" := Str(x.brand), "name" := Str(x.name),
      "description" := Str(x.description), "price" := Float(x.price),
      "embedding" := VectorValue(x.embedding)]
  }

  /** `Item.to_dict` of the product schema: `embedding` is dropped unless asked for. */
  function ProductToDict(x: ProductItem, includeEmbedding: bool): (d: map<string, Value>)
    ensures d.Keys == if includeEmbedding then ProductColumns else ProductColumns - {"embedding"}
    ensures forall k :: k in d ==> d[k] == ProductColumnMap(x)[k]
  {
    var all := ProductColumnMap(x);
    if includeEmbedding then all else all - {"embedding"}
  }

  // ---- Reading a row back from its dictionary (the partner of to_dict) ----

  function AsStr(v: Value): Option<string>
  {
    if v.Str? then Some(v.s) else None
  }

  function AsStrList(v: Value): Option<seq<string>>
  {
    if v.List? && forall i :: 0 <= i < |v.items| ==> v.items[i].Str? then
      Some(seq(|v.items|, i requires 0 <= i < |v.items| => v.items[i].s))
    else None
  }

  function AsVector(v: Value): Option<Option<seq<PyFloat>>>
  {
    if v.Null? then Some(None)
    else if v.List? && forall i :: 0 <= i < |v.items| ==> v.items[i].Float? then
      Some(Some(seq(|v.items|, i requires 0 <= i < |v.items| => v.items[i].literal)))
    else None
  }

  function SessionFromDict(d: map<string, Value>): Option<SessionItem>
  {
    if SessionColumns <= d.Keys then
      var id, title, description := AsStr(d["id"]), AsStr(d["title"]), AsStr(d["description"]);
      var speakers, tracks := AsStrList(d["speakers"]), AsStrList(d["tracks"]);
      var day, time, mode := AsStr(d["day"]), AsStr(d["time"]), AsStr(d["mode"]);
      var ada, nomic := AsVector(d["embedding_ada002"]), AsVector(d["embedding_nomic"]);
      if id.Some? && title.Some? && description.Some? && speakers.Some? && tracks.Some?
         && day.Some? && time.Some? && mode.Some? && ada.Some? && nomic.Some?
      then Some(SessionItem(id.value, title.value, description.value, speakers.value, tracks.value,
                            day.value, time.value, mode.value, ada.value, nomic.value))
      else None
    else None
  }

  function ProductFromDict(d: map<string, Value>): Option<ProductItem>
  {
    if ProductColumns <= d.Keys && d["id"].Int? && d["price"].Float? then
      var kind, brand, name := AsStr(d["type"]), AsStr(d["brand"]), AsStr(d["name"]);
      var description, embedding := AsStr(d["description"]), AsVector(d["embedding"]);
      if kind.Some? && brand.Some? && name.Some? && description.Some? && embedding.Some?
      then Some(ProductItem(d["id"].i, kind.value, brand.value, name.value, description.value,
                            d["price"].literal, embedding.value))
      else None
    else None
  }

  lemma StrListRoundTrip(xs: seq<string>)
    ensures AsStrList(StrList(xs)) == Some(xs)
  {
    var v := StrList(xs);
    assert forall i :: 0 <= i < |v.items| ==> v.items[i] == Str(xs[i]);
    assert seq(|v.items|, i requires 0 <= i < |v.items| => v.items[i].s) == xs;
  }

  lemma VectorRoundTrip(e: Option<seq<PyFloat>>)
    ensures AsVector(VectorValue(e)) == Some(e)
  {
    if e.Some? {
      var v := VectorValue(e);
      assert forall i :: 0 <= i < |v.items| ==> v.items[i] == Float(e.value[i]);
      assert seq(|v.items|, i requires 0 <= i < |v.items| => v.items[i].literal) == e.value;
    }
  }

  /** `to_dict(include_embedding=True)` loses nothing: the row can be read back from it. */
  lemma {:induction false} SessionDictRoundTrip(x: SessionItem)
    ensures SessionFromDict(SessionToDict(x, true)) == Some(x)
  {
    StrListRoundTrip(x.speakers);
    StrListRoundTrip(x.tracks);
    VectorRoundTrip(x.embeddingAda002);
    VectorRoundTrip(x.embeddingNomic);
  }

  /** `to_dict(include_embedding=True)` of a product loses nothing. */
  lemma {:induction false} ProductDictRoundTrip(x: ProductItem)
    ensures ProductFromDict(ProductToDict(x, true)) == Some(x)
  {
    VectorRoundTrip(x.embedding);
  }

  /** The public dictionary depends on nothing but the non-embedding columns. */
  lemma SessionDictIgnoresEmbeddings(x: SessionItem, y: SessionItem)
    requires x.(embeddingAda002 := y.embeddingAda002, embeddingNomic := y.embeddingNomic) == y
    ensures SessionToDict(x, false) == SessionToDict(y, false)
  {
  }

  // ---- Text renderings ----

  /** `Item.to_str_for_rag` of the session schema. */
  function SessionToStrForRag(x: SessionItem): (s: string)
  {
    "Title:" + x.title + " Description:" + x.description + " Speakers:" + PyStr(StrList(x.speakers))
    + " Tracks:" + PyStr(StrList(x.tracks)) + " Day:" + x.day + " Time:" + x.time + " Mode:" + x.mode
  }

  /** A one-line text made of labelled fields: each label followed directly by its field's
      text, in order. */
  function Labelled(fields: seq<(string, string)>): string
  {
    if fields == [] then ""
    else Labelled(fields[..|fields| - 1]) + (fields[|fields| - 1].0 + fields[|fields| - 1].1)
  }

  /** Each label and its field occur right where the fields before them end. */
  lemma {:induction false} LabelledFieldsOccur(fields: seq<(string, string)>)
    ensures forall i :: 0 <= i < |fields| ==>
      OccursAt(fields[i].0 + fields[i].1, Labelled(fields), |Labelled(fields[..i])|)
  {
    if fields != [] {
      var init := fields[..|fields| - 1];
      var last := fields[|fields| - 1];
      LabelledFieldsOccur(init);
      var s := Labelled(fields);
      assert s == Labelled(init) + (last.0 + last.1);
      assert fields[..|fields| - 1] == init;
      forall i | 0 <= i < |fields|
        ensures OccursAt(fields[i].0 + fields[i].1, s, |Labelled(fields[..i])|)
      {
        if i < |init| {
          assert init[i] == fields[i] && init[..i] == fields[..i];
          var k := |Labelled(init[..i])|;
          assert s[k..k + |fields[i].0 + fields[i].1|] == Labelled(init)[k..k + |fields[i].0 + fields[i].1|];
        } else {
          assert s[|Labelled(init)|..] == last.0 + last.1;
        }
      }
    }
  }

  /** The labels and fields of the session rag text, the two lists already printed. */
  function SessionRagFields(title: string, description: string, speakers: string, tracks: string,
                            day: string, time: string, mode: string): seq<(string, string)>
  {
    [("Title:", title), (" Description:", description), (" Speakers:", speakers), (" Tracks:", tracks),
     (" Day:", day), (" Time:", time), (" Mode:", mode)]
  }

  /** The session rag text is the labelled fields, in order. */
  lemma {:induction false} SessionRagLayout(title: string, description: string, speakers: string, tracks: string,
                                            day: string, time: string, mode: string)
    ensures "Title:" + title + " Description:" + description + " Speakers:" + speakers
            + " Tracks:" + tracks + " Day:" + day + " Time:" + time + " Mode:" + mode
         == Labelled(SessionRagFields(title, description, speakers, tracks, day, time, mode))
  {
    var f := SessionRagFields(title, description, speakers, tracks, day, time, mode);
    assert f[..1][..0] == [];
    assert Labelled(f[..1]) == "Title:" + title;
    assert f[..2][..1] == f[..1];
    assert Labelled(f[..2]) == "Title:" + title + " Description:" + description;
    assert f[..3][..2] == f[..2];
    assert Labelled(f[..3]) == "Title:" + title + " Description:" + description + " Speakers:" + speakers;
    assert f[..4][..3] == f[..3];
    assert Labelled(f[..4]) == "Title:" + title + " Description:" + description + " Speakers:" + speakers
                               + " Tracks:" + tracks;
    assert f[..5][..4] == f[..4];
    assert Labelled(f[..5]) == "Title:" + title + " Description:" + description + " Speakers:" + speakers
                               + " Tracks:" + tracks + " Day:" + day;
    assert f[..6][..5] == f[..5];
    assert Labelled(f[..6]) == "Title:" + title + " Description:" + description + " Speakers:" + speakers
                               + " Tracks:" + tracks + " Day:" + day + " Time:" + time;
    assert f[..7][..6] == f[..6];
    assert f[..7] == f;
  }

  /** The rag text is the labels `Title:`, ` Description:`, ` Speakers:`, ` Tracks:`, ` Day:`,
      ` Time:` and ` Mode:`, in that order, each followed directly by its field (the two lists
      printed as Python prints them), and nothing else. */
  lemma {:induction false} SessionRagShowsFields(x: SessionItem)
    ensures var fields := SessionRagFields(x.title, x.description, PyStr(StrList(x.speakers)),
                                           PyStr(StrList(x.tracks)), x.day, x.time, x.mode);
      var s := SessionToStrForRag(x);
      s == Labelled(fields) &&
      forall i :: 0 <= i < |fields| ==> OccursAt(fields[i].0 + fields[i].1, s, |Labelled(fields[..i])|)
  {
    var fields := SessionRagFields(x.title, x.description, PyStr(StrList(x.speakers)),
                                   PyStr(StrList(x.tracks)), x.day, x.time, x.mode);
    SessionRagLayout(x.title, x.description, PyStr(StrList(x.speakers)), PyStr(StrList(x.tracks)), x.day, x.time,
                     x.mode);
    LabelledFieldsOccur(fields);
  }

  /** `Item.to_str_for_embedding` of the session schema. */
  function SessionToStrForEmbedding(x: SessionItem): (s: string)
  {
    "Name: " + x.title + " Description: " + x.description + " Tracks: " + PyStr(StrList(x.tracks))
    + " Day: " + x.day + " Mode: " + x.mode
  }

  /** The labels and fields of the session embedding text, the track list already printed. */
  function SessionEmbeddingFields(title: string, description: string, tracks: string, day: string, mode: string)
    : seq<(string, string)>
  {
    [("Name: ", title), (" Description: ", description), (" Tracks: ", tracks), (" Day: ", day), (" Mode: ", mode)]
  }

  /** The session embedding text is the labelled fields, in order. */
  lemma {:induction false} SessionEmbeddingLayout(title: string, description: string, tracks: string, day: string,
                                                  mode: string)
    ensures "Name: " + title + " Description: " + description + " Tracks: " + tracks + " Day: " + day
            + " Mode: " + mode
         == Labelled(SessionEmbeddingFields(title, description, tracks, day, mode))
  {
    var f := SessionEmbeddingFields(title, description, tracks, day, mode);
    assert f[..1][..0] == [];
    assert Labelled(f[..1]) == "Name: " + title;
    assert f[..2][..1] == f[..1];
    assert Labelled(f[..2]) == "Name: " + title + " Description: " + description;
    assert f[..3][..2] == f[..2];
    assert Labelled(f[..3]) == "Name: " + title + " Description: " + description + " Tracks: " + tracks;
    assert f[..4][..3] == f[..3];
    assert Labelled(f[..4]) == "Name: " + title + " Description: " + description + " Tracks: " + tracks
                               + " Day: " + day;
    assert f[..5][..4] == f[..4];
    assert f[..5] == f;
  }

  /** The embedding text labels the title `Name: `, then shows ` Description: `, ` Tracks: `,
      ` Day: ` and ` Mode: `, in that order, each followed directly by its field, and nothing else. */
  lemma {:induction false} SessionEmbeddingShowsFields(x: SessionItem)
    ensures var fields := SessionEmbeddingFields(x.title, x.description, PyStr(StrList(x.tracks)), x.day, x.mode);
      var s := SessionToStrForEmbedding(x);
      s == Labelled(fields) &&
      forall i :: 0 <= i < |fields| ==> OccursAt(fields[i].0 + fields[i].1, s, |Labelled(fields[..i])|)
  {
    SessionEmbeddingLayout(x.title, x.description, PyStr(StrList(x.tracks)), x.day, x.mode);
    LabelledFieldsOccur(SessionEmbeddingFields(x.title, x.description, PyStr(StrList(x.tracks)), x.day, x.mode));
  }

  /** Speakers and time never reach the embedded text. */
  lemma SessionEmbeddingIgnoresSpeakersAndTime(x: SessionItem, y: SessionItem)
    requires x.(speakers := y.speakers, time := y.time) == y
    ensures SessionToStrForEmbedding(x) == SessionToStrForEmbedding(y)
  {
  }

  /** `Item.to_str_for_rag` of the product schema. */
  function ProductToStrForRag(x: ProductItem): (s: string)
  {
    "Name:" + x.name + " Description:" + x.description + " Price:" + x.price + " Brand:" + x.brand
    + " Type:" + x.kind
  }

  /** The labels and fields of the product rag text. */
  function ProductRagFields(name: string, description: string, price: string, brand: string, kind: string)
    : seq<(string, string)>
  {
    [("Name:", name), (" Description:", description), (" Price:", price), (" Brand:", brand), (" Type:", kind)]
  }

  /** The product rag text is the labelled fields, in order. */
  lemma {:induction false} ProductRagLayout(name: string, description: string, price: string, brand: string,
                                            kind: string)
    ensures "Name:" + name + " Description:" + description + " Price:" + price + " Brand:" + brand + " Type:" + kind
         == Labelled(ProductRagFields(name, description, price, brand, kind))
  {
    var f := ProductRagFields(name, description, price, brand, kind);
    assert f[..1][..0] == [];
    assert Labelled(f[..1]) == "Name:" + name;
    assert f[..2][..1] == f[..1];
    assert Labelled(f[..2]) == "Name:" + name + " Description:" + description;
    assert f[..3][..2] == f[..2];
    assert Labelled(f[..3]) == "Name:" + name + " Description:" + description + " Price:" + price;
    assert f[..4][..3] == f[..3];
    assert Labelled(f[..4]) == "Name:" + name + " Description:" + description + " Price:" + price + " Brand:" + brand;
    assert f[..5][..4] == f[..4];
    assert f[..5] == f;
  }

  /** The rag text is the labels `Name:`, ` Description:`, ` Price:`, ` Brand:` and ` Type:`, in
      that order, each followed directly by its field, and nothing else. */
  lemma {:induction false} ProductRagShowsFields(x: ProductItem)
    ensures var fields := ProductRagFields(x.name, x.description, x.price, x.brand, x.kind);
      var s := ProductToStrForRag(x);
      s == Labelled(fields) &&
      forall i :: 0 <= i < |fields| ==> OccursAt(fields[i].0 + fields[i].1, s, |Labelled(fields[..i])|)
  {
    ProductRagLayout(x.name, x.description, x.price, x.brand, x.kind);
    LabelledFieldsOccur(ProductRagFields(x.name, x.description, x.price, x.brand, x.kind));
  }

  /** `Item.to_str_for_embedding` of the product schema: name, description and type only. */
  function ProductToStrForEmbedding(x: ProductItem): (s: string)
  {
    "Name: " + x.name + " Description: " + x.description + " Type: " + x.kind
  }

  /** The labels and fields of the product embedding text. */
  function ProductEmbeddingFields(name: string, description: string, kind: string): seq<(string, string)>
  {
    [("Name: ", name), (" Description: ", description), (" Type: ", kind)]
  }

  /** The product embedding text is the labelled fields, in order. */
  lemma {:induction false} ProductEmbeddingLayout(name: string, description: string, kind: string)
    ensures "Name: " + name + " Description: " + description + " Type: " + kind
         == Labelled(ProductEmbeddingFields(name, description, kind))
  {
    var f := ProductEmbeddingFields(name, description, kind);
    assert f[..1][..0] == [];
    assert Labelled(f[..1]) == "Name: " + name;
    assert f[..2][..1] == f[..1];
    assert Labelled(f[..2]) == "Name: " + name + " Description: " + description;
    assert f[..3][..2] == f[..2];
    assert f[..3] == f;
  }

  /** The embedding text is the labels `Name: `, ` Description: ` and ` Type: `, in that order,
      each followed directly by its field, and nothing else. */
  lemma {:induction false} ProductEmbeddingShowsFields(x: ProductItem)
    ensures var fields := ProductEmbeddingFields(x.name, x.description, x.kind);
      var s := ProductToStrForEmbedding(x);
      s == Labelled(fields) &&
      forall i :: 0 <= i < |fields| ==> OccursAt(fields[i].0 + fields[i].1, s, |Labelled(fields[..i])|)
  {
    ProductEmbeddingLayout(x.name, x.description, x.kind);
    LabelledFieldsOccur(ProductEmbeddingFields(x.name, x.description, x.kind));
  }

  /** Price and brand never reach the embedded text. */
  lemma ProductEmbeddingIgnoresPriceAndBrand(x: ProductItem, y: ProductItem)
    requires x.(price := y.price, brand := y.brand) == y
    ensures ProductToStrForEmbedding(x) == ProductToStrForEmbedding(y)
  {
  }

  /** How `f"{item.id}"` prints an id. */
  function SessionIdText(x: SessionItem): string { x.id }
  function ProductIdText(x: ProductItem): string { IntToString(x.id) }
}
