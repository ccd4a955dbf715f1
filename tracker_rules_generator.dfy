/** TrackerBlockingMVP/RulesGeneration/TrackerRulesGenerator.swift: turns dataset
    bytes and the allowlist into the rule-list JSON, falling back once to the
    stored dataset. Decoding (`JSONDecoder` into TrackerRadarKit's `TrackerData`),
    rule building (`ContentBlockerRulesBuilder.buildRules`) and rule encoding are
    foreign code and enter as the functions of a Toolkit. */
module TrackerRulesGenerator {
  import opened Wrappers
  import opened TrackerDataStorage

  datatype RuleGenerationError = DecodingFailed | FallbackNotAvailable

  /** The foreign pieces: `decode` is None when decoding throws; `encode` is None
      when `JSONEncoder` throws or the bytes are not UTF-8. */
  datatype Toolkit<!TrackerData, !Rules> = Toolkit(
    decode: Bytes -> Option<TrackerData>,
    buildRules: (TrackerData, set<string>) -> Rules,
    encode: Rules -> Option<string>)

  const EmptyRuleList: string := "[]"

  /** `convertToRuleList`: never fails; an encoding failure degrades to "[]". */
  function ConvertToRuleList<D, R>(tk: Toolkit<D, R>, trackerData: D, allowlist: set<string>): (json: string)
    ensures tk.encode(tk.buildRules(trackerData, allowlist)).None? ==> json == EmptyRuleList
    ensures tk.encode(tk.buildRules(trackerData, allowlist)).Some? ==>
              json == tk.encode(tk.buildRules(trackerData, allowlist)).value
  {
    tk.encode(tk.buildRules(trackerData, allowlist)).GetOr(EmptyRuleList)
  }

  /** `generateRules(from:allowlist:)`; `load` is what `storage.load()` returns,
      consulted only after the primary bytes fail to decode. */
  function GenerateRules<D, R>(tk: Toolkit<D, R>, data: Bytes, allowlist: set<string>,
                               load: Result<Option<Bytes>, StorageError>): (r: Result<string, RuleGenerationError>)
    // rules come out exactly when one of the two datasets decodes
    ensures r.Ok? <==> tk.decode(data).Some? || (TryLoad(load).Some? && tk.decode(TryLoad(load).value).Some?)
  {
    match tk.decode(data)
    case Some(trackerData) => Ok(ConvertToRuleList(tk, trackerData, allowlist))
    case None =>
      match TryLoad(load)
      case Some(storedData) =>
        (match tk.decode(storedData)
         case Some(trackerData) => Ok(ConvertToRuleList(tk, trackerData, allowlist))
         case None => Err(DecodingFailed))
      case None => Err(FallbackNotAvailable)
  }

  /** Primary bytes that decode give their own rules, whatever the store holds. */
  lemma PrimaryWins<D, R>(tk: Toolkit<D, R>, data: Bytes, allowlist: set<string>,
                          load: Result<Option<Bytes>, StorageError>, trackerData: D)
    requires tk.decode(data) == Some(trackerData)
    ensures GenerateRules(tk, data, allowlist, load) == Ok(ConvertToRuleList(tk, trackerData, allowlist))
  {
  }

  /** Undecodable primary bytes give exactly the rules of the stored dataset when
      that decodes: generating from bad bytes equals generating from the stored ones. */
  lemma FallbackEquivalence<D, R>(tk: Toolkit<D, R>, bad: Bytes, allowlist: set<string>,
                                  load: Result<Option<Bytes>, StorageError>)
    requires tk.decode(bad).None?
    requires TryLoad(load).Some? && tk.decode(TryLoad(load).value).Some?
    ensures GenerateRules(tk, bad, allowlist, load) == GenerateRules(tk, TryLoad(load).value, allowlist, load)
    ensures GenerateRules(tk, bad, allowlist, load).Ok?
  {
  }

  /** The two errors: `decodingFailed` when a stored dataset exists but does not
      decode either, `fallbackNotAvailable` when the load gives nil or throws. */
  lemma GenerateRulesErrors<D, R>(tk: Toolkit<D, R>, data: Bytes, allowlist: set<string>,
                                  load: Result<Option<Bytes>, StorageError>)
    ensures GenerateRules(tk, data, allowlist, load) == Err(DecodingFailed) <==>
              tk.decode(data).None? && TryLoad(load).Some? && tk.decode(TryLoad(load).value).None?
    ensures GenerateRules(tk, data, allowlist, load) == Err(FallbackNotAvailable) <==>
              tk.decode(data).None? && TryLoad(load).None?
  {
  }

  /** Any generated rule list is the encoding of the rules built from some
      decodable dataset (the primary or the stored one) and the allowlist, or "[]". */
  lemma GeneratedRulesOrigin<D, R>(tk: Toolkit<D, R>, data: Bytes, allowlist: set<string>,
                                   load: Result<Option<Bytes>, StorageError>)
    requires GenerateRules(tk, data, allowlist, load).Ok?
    ensures var json := GenerateRules(tk, data, allowlist, load).value;
            exists source :: (source == data || TryLoad(load) == Some(source)) && tk.decode(source).Some? &&
                             json == ConvertToRuleList(tk, tk.decode(source).value, allowlist)
  {
    if tk.decode(data).None? {
      var source := TryLoad(load).value;
      assert tk.decode(source).Some?;
    }
  }
}
