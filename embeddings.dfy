/** The embedding adapter in its three versions: which arguments go to the embeddings API
    (`model`, `input`, and `dimensions` only for models that accept it) and what comes back.
    The API itself is a parameter: a function from the request to the response's list of
    embeddings, or a provider error. */
module Embeddings {
  import opened Common

  /** The arguments of one `embeddings.create` call. */
  datatype EmbeddingRequest = EmbeddingRequest(model: string, input: Value, dimensions: Option<int>)

  /** The embeddings API: the `data` list of the response, each entry's `embedding`. */
  type EmbeddingApi = EmbeddingRequest -> Result<seq<seq<PyFloat>>>

  const Ada002 := "text-embedding-ada-002"
  const Small3 := "text-embedding-3-small"
  const Large3 := "text-embedding-3-large"

  /** Which known models accept a `dimensions` argument. */
  const SupportedDimensionsModel: map<string, bool> := map[Ada002 := false, Small3 := true, Large3 := true]

  /** `SUPPORTED_DIMENSIONS_MODEL.get(model)` is truthy. */
  predicate TakesDimensions(model: string)
  {
    model in SupportedDimensionsModel && SupportedDimensionsModel[model]
  }

  function DimensionsError(model: string): Error
  {
    ValueError("Model " + model + " requires embedding dimensions")
  }

  /** The request built by src/backend/fastapi_app/embeddings.py. */
  function EmbeddingRequestFor(q: Value, embedModel: string, embedDeployment: Option<string>,
                               embeddingDimensions: Option<int>): (r: Result<EmbeddingRequest>)
    ensures r.Err? <==> TakesDimensions(embedModel) && embeddingDimensions.None?
    ensures r.Err? ==> r.error == DimensionsError(embedModel)
    ensures r.Ok? ==> r.value.input == q
    ensures r.Ok? ==> r.value.model == OrElse(embedDeployment, embedModel)
    ensures r.Ok? ==> (r.value.dimensions.Some? <==> TakesDimensions(embedModel))
    ensures r.Ok? && r.value.dimensions.Some? ==> r.value.dimensions == embeddingDimensions
  {
    var dims: Result<Option<int>> :=
      if TakesDimensions(embedModel) then
        (if embeddingDimensions.None? then Err(DimensionsError(embedModel)) else Ok(embeddingDimensions))
      else Ok(None);
    match dims
    case Err(e) => Err(e)
    case Ok(d) => Ok(EmbeddingRequest(OrElse(embedDeployment, embedModel), q, d))
  }

  /** The request built by src/backend/rag_app/embeddings.py: the model name is always sent. */
  function RagAppEmbeddingRequest(q: Value, embedModel: string, embeddingDimensions: Option<int>): (r: Result<EmbeddingRequest>)
    ensures r.Ok? ==> r.value.model == embedModel
  {
    if TakesDimensions(embedModel) then
      if embeddingDimensions.None? then Err(DimensionsError(embedModel))
      else Ok(EmbeddingRequest(embedModel, q, embeddingDimensions))
    else Ok(EmbeddingRequest(embedModel, q, None))
  }

  /** The request built by src/fastapi_app/embeddings.py: the table is indexed directly, and
      the dimensions argument always has a value (1536 by default). */
  function LegacyEmbeddingRequest(q: Value, embedModel: string, embedDeployment: Option<string>,
                                  embeddingDimensions: int): (r: Result<EmbeddingRequest>)
    ensures r.Err? <==> embedModel !in SupportedDimensionsModel
    ensures r.Err? ==> r.error == KeyError(embedModel)
    ensures r.Ok? ==> r.value.dimensions == if TakesDimensions(embedModel) then Some(embeddingDimensions) else None
    ensures r.Ok? ==> r.value.model == OrElse(embedDeployment, embedModel)
  {
    if embedModel !in SupportedDimensionsModel then Err(KeyError(embedModel))
    else
      var dims := if SupportedDimensionsModel[embedModel] then Some(embeddingDimensions) else None;
      Ok(EmbeddingRequest(OrElse(embedDeployment, embedModel), q, dims))
  }

  const LegacyDefaultDimensions := 1536

  /** Send the request and return the first embedding of the response. */
  function FirstEmbedding(api: EmbeddingApi, req: Result<EmbeddingRequest>): (r: Result<seq<PyFloat>>)
    ensures req.Err? ==> r == Err(req.error)
    ensures req.Ok? && api(req.value).Ok? && |api(req.value).value| > 0 ==> r == Ok(api(req.value).value[0])
    ensures r.Ok? ==> req.Ok? && api(req.value).Ok? && |api(req.value).value| > 0
  {
    match req
    case Err(e) => Err(e)
    case Ok(rq) =>
      match api(rq)
      case Err(e) => Err(e)
      case Ok(data) => if |data| == 0 then Err(IndexError) else Ok(data[0])
  }

  /** `compute_text_embedding` of src/backend/fastapi_app/embeddings.py. */
  function ComputeTextEmbedding(api: EmbeddingApi, q: Value, embedModel: string, embedDeployment: Option<string>,
                                embeddingDimensions: Option<int>): Result<seq<PyFloat>>
  {
    FirstEmbedding(api, EmbeddingRequestFor(q, embedModel, embedDeployment, embeddingDimensions))
  }

  /** `compute_text_embedding` of src/backend/rag_app/embeddings.py. */
  function RagAppComputeTextEmbedding(api: EmbeddingApi, q: Value, embedModel: string,
                                      embeddingDimensions: Option<int>): Result<seq<PyFloat>>
  {
    FirstEmbedding(api, RagAppEmbeddingRequest(q, embedModel, embeddingDimensions))
  }

  /** `compute_text_embedding` of src/fastapi_app/embeddings.py. */
  function LegacyComputeTextEmbedding(api: EmbeddingApi, q: Value, embedModel: string,
                                      embedDeployment: Option<string>, embeddingDimensions: int): Result<seq<PyFloat>>
  {
    FirstEmbedding(api, LegacyEmbeddingRequest(q, embedModel, embedDeployment, embeddingDimensions))
  }

  // ---- How the three versions relate ----

  /** The rag_app version is the backend version with no deployment name. */
  lemma RagAppIsBackendWithoutDeployment(q: Value, m: string, d: Option<int>)
    ensures RagAppEmbeddingRequest(q, m, d) == EmbeddingRequestFor(q, m, None, d)
  {
  }

  /** On the three known models, the legacy version is the backend version with the
      dimensions always given. */
  lemma LegacyAgreesOnKnownModels(q: Value, m: string, dep: Option<string>, d: int)
    requires m in SupportedDimensionsModel
    ensures LegacyEmbeddingRequest(q, m, dep, d) == EmbeddingRequestFor(q, m, dep, Some(d))
  {
  }

  /** An unknown model is sent without dimensions by the backend version but fails in the
      legacy version. */
  lemma UnknownModelDiffers(q: Value, m: string, dep: Option<string>, d: int)
    requires m !in SupportedDimensionsModel
    ensures EmbeddingRequestFor(q, m, dep, Some(d)) == Ok(EmbeddingRequest(OrElse(dep, m), q, None))
    ensures LegacyEmbeddingRequest(q, m, dep, d) == Err(KeyError(m))
  {
  }

  /** ada-002 never receives `dimensions`, whatever is passed. */
  lemma Ada002NeverGetsDimensions(q: Value, dep: Option<string>, d: Option<int>)
    ensures EmbeddingRequestFor(q, Ada002, dep, d) == Ok(EmbeddingRequest(OrElse(dep, Ada002), q, None))
  {
  }
}
