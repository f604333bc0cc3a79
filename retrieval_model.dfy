/**
 * Retrieval models: the scoring family an evaluation uses, the parameters
 * each family carries, the default operator placed around every query,
 * and the dispatch that builds a model from the parameter file.
 */
module RetrievalModels {
  import opened Support

  /**
   * The retrieval models.  Letor exists as a class but the dispatch below
   * never builds it; the score operators reject it, and its default
   * operator is null.
   */
  datatype RetrievalModel =
    | UnrankedBoolean
    | RankedBoolean
    | BM25(k1: real, b: real, k3: real)
    | Indri(mu: real, lam: real)
    | Letor(k1: real, b: real, k3: real, mu: real, lam: real)

  /**
   * defaultQrySopName: the operator wrapped around an unstructured query.
   * None stands for Java's null.  The two boolean models use "#or".
   */
  function DefaultQrySopName(m: RetrievalModel): Option<string>
  {
    match m
    case UnrankedBoolean => Some("#or")
    case RankedBoolean => Some("#or")
    case BM25(_, _, _) => Some("#sum")
    case Indri(_, _) => Some("#and")
    case Letor(_, _, _, _, _) => None
  }

  /**
   * The text Java produces when it concatenates the default operator
   * name with a string: a null name prints as "null".
   */
  function DefaultOperatorText(m: RetrievalModel): (r: string)
    ensures DefaultQrySopName(m).Some? ==> r == DefaultQrySopName(m).value
    ensures DefaultQrySopName(m).None? ==> r == "null"
  {
    match DefaultQrySopName(m)
    case Some(name) => name
    case None => "null"
  }

  datatype ModelError =
    | UnknownRetrievalModel(name: string)
    | MissingParameter(key: string)

  /** The parameter keys a model needs, in the order its constructor reads them. */
  function RequiredKeys(lowerName: string): seq<string>
  {
    if lowerName == "bm25" then ["BM25:k_1", "BM25:b", "BM25:k_3"]
    else if lowerName == "indri" then ["Indri:mu", "Indri:lambda"]
    else []
  }

  predicate KnownModelName(lowerName: string)
  {
    lowerName == "unrankedboolean" || lowerName == "rankedboolean" ||
    lowerName == "bm25" || lowerName == "indri"
  }

  /**
   * initializeRetrievalModel.  The algorithm name is matched without
   * regard to case; the numeric parameters are already parsed.  An
   * unknown name is an error naming the text as given; a missing
   * parameter (a null passed to Double.parseDouble) is an error too.
   */
  function InitializeRetrievalModel(algorithm: string, values: map<string, real>): (r: Result<RetrievalModel, ModelError>)
    ensures r.Err? && r.error.UnknownRetrievalModel? <==> !KnownModelName(Lower(algorithm))
    ensures r.Err? && r.error.UnknownRetrievalModel? ==> r.error.name == algorithm
    ensures r.Err? && r.error.MissingParameter? ==>
              r.error.key in RequiredKeys(Lower(algorithm)) && r.error.key !in values
    ensures r.Ok? <==> KnownModelName(Lower(algorithm)) &&
                       forall k :: k in RequiredKeys(Lower(algorithm)) ==> k in values
    ensures r.Ok? ==> !r.value.Letor? && DefaultQrySopName(r.value).Some?
    ensures r.Ok? && r.value.BM25? ==>
              Lower(algorithm) == "bm25" &&
              r.value == BM25(values["BM25:k_1"], values["BM25:b"], values["BM25:k_3"])
    ensures r.Ok? && r.value.Indri? ==>
              Lower(algorithm) == "indri" &&
              r.value == Indri(values["Indri:mu"], values["Indri:lambda"])
  {
    var name := Lower(algorithm);
    if name == "unrankedboolean" then Ok(UnrankedBoolean)
    else if name == "rankedboolean" then Ok(RankedBoolean)
    else if name == "bm25" then
      if "BM25:k_1" !in values then Err(MissingParameter("BM25:k_1"))
      else if "BM25:b" !in values then Err(MissingParameter("BM25:b"))
      else if "BM25:k_3" !in values then Err(MissingParameter("BM25:k_3"))
      else Ok(BM25(values["BM25:k_1"], values["BM25:b"], values["BM25:k_3"]))
    else if name == "indri" then
      if "Indri:mu" !in values then Err(MissingParameter("Indri:mu"))
      else if "Indri:lambda" !in values then Err(MissingParameter("Indri:lambda"))
      else Ok(Indri(values["Indri:mu"], values["Indri:lambda"]))
    else Err(UnknownRetrievalModel(algorithm))
  }

  /** The same name in any letter case selects the same model. */
  lemma ModelNameCaseInsensitive(a: string, b: string, values: map<string, real>)
    requires Lower(a) == Lower(b)
    ensures InitializeRetrievalModel(a, values).Ok? <==> InitializeRetrievalModel(b, values).Ok?
    ensures InitializeRetrievalModel(a, values).Ok? ==>
              InitializeRetrievalModel(a, values).value == InitializeRetrievalModel(b, values).value
  {
  }

  lemma BM25MixedCaseExample(values: map<string, real>)
    requires "BM25:k_1" in values && "BM25:b" in values && "BM25:k_3" in values
    ensures InitializeRetrievalModel("BM25", values) ==
            Ok(BM25(values["BM25:k_1"], values["BM25:b"], values["BM25:k_3"]))
  {
    assert Lower("BM25") == "bm25";
  }
}
