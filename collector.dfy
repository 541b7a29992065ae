/**
 * The value-script date histogram facet collector: it resolves the field's
 * mapping once, picks the identity or interval processor, binds field data and
 * the value script to each segment, feeds every value of a collected document
 * to the processor, and hands the processor's `counts` and `totals` out as the facet.
 */
module FacetCollector {

  import opened Wrappers
  import opened DateHistogram

  /** The storage type of a field's decoded values. */
  datatype FieldDataType = FieldDataType(name: string)

  /** The parts of a field mapper the collector reads: its index name and field data type. */
  datatype FieldMapper = FieldMapper(indexName: string, fieldDataType: FieldDataType)

  /** What the mapper service resolves for a field name; `mapper` is absent when the field has none. */
  datatype SmartNameFieldMappers = SmartNameFieldMappers(mapper: Option<FieldMapper>)

  /** The error a facet raises while it is being set up or executed. */
  datatype FacetPhaseExecutionException = FacetPhaseExecutionException(facetName: string, message: string)

  /** The ordering the facet's consumer applies; the collector only forwards it. */
  datatype ComparatorType = ComparatorType(name: string)

  /** The facet handed out at the end: the name, the comparator and the two maps. */
  datatype CountAndTotalFacet =
    CountAndTotalFacet(name: string, comparatorType: ComparatorType, counts: map<Long, int>, totals: map<Long, real>)

  /** The decoded long values of one segment's field: doc -> the doc's values, in order. */
  type LongFieldData = int -> seq<Long>

  /** The field data cache: (field data type, reader, index field name) -> that segment's field data. */
  type FieldDataCache = (FieldDataType, int, string) -> LongFieldData

  function NoMappingMessage(fieldName: string): string
  {
    "No mapping found for field [" + fieldName + "]"
  }

  /**
   * The mapping check of the constructor: the field's mapper, or the error raised
   * when the mapper service knows no mapper for the field.
   */
  function ResolveMapper(smartName: map<string, SmartNameFieldMappers>, facetName: string, fieldName: string)
    : (r: Result<FieldMapper, FacetPhaseExecutionException>)
    ensures r.Failure? <==> fieldName !in smartName || smartName[fieldName].mapper.None?
    ensures r.Failure? ==> r.error.facetName == facetName && r.error.message == NoMappingMessage(fieldName)
    ensures r.Success? ==> smartName[fieldName].mapper == Some(r.value)
  {
    if fieldName !in smartName || smartName[fieldName].mapper.None? then
      Failure(FacetPhaseExecutionException(facetName, NoMappingMessage(fieldName)))
    else
      Success(smartName[fieldName].mapper.value)
  }

  /**
   * A compiled value script. It is bound to a segment with `SetNextReader` and to a
   * document with `SetNextDocId`; `RunAsDouble` evaluates it for the current binding.
   */
  class SearchScript {
    const run: Script
    var reader: Option<int>
    var docId: Option<int>

    constructor (run: Script)
      ensures this.run == run && reader == None && docId == None
    {
      this.run := run;
      reader := None;
      docId := None;
    }

    method SetNextReader(reader: int)
      modifies this
      ensures this.reader == Some(reader) && docId == old(docId)
    {
      this.reader := Some(reader);
    }

    method SetNextDocId(doc: int)
      modifies this
      ensures docId == Some(doc) && reader == old(reader)
    {
      docId := Some(doc);
    }

    method RunAsDouble() returns (v: real)
      requires reader.Some? && docId.Some?
      ensures v == run(reader.value, docId.value)
    {
      v := run(reader.value, docId.value);
    }
  }

  /**
   * The per-value processor. One class serves both processors of the collector:
   * `policy` is `Identity` (keys are the raw millis) or `Interval` (keys are buckets).
   */
  class DateHistogramProc {
    const policy: Policy
    const bucket: BucketFn
    const valueScript: SearchScript
    var counts: map<Long, int>
    var totals: map<Long, real>

    /**
     * Both maps hold the same buckets, and every bucket has been counted at least once.
     * This holds because scripts never fail here: in the source, a script that throws
     * at `runAsDouble` leaves a bucket in `counts` that `totals` lacks.
     */
    ghost predicate Valid()
      reads this
    {
      && counts.Keys == totals.Keys
      && forall k :: k in counts ==> counts[k] >= 1
    }

    constructor (policy: Policy, bucket: BucketFn, valueScript: SearchScript)
      ensures Valid()
      ensures this.policy == policy && this.bucket == bucket && this.valueScript == valueScript
      ensures counts == map[] && totals == map[]
    {
      this.policy := policy;
      this.bucket := bucket;
      this.valueScript := valueScript;
      counts := map[];
      totals := map[];
    }

    /**
     * One value of a document: bind the script to the document, count the value under
     * its key and add the script's value to that key's total.
     */
    method OnValue(docId: int, millis: Long)
      requires Valid() && valueScript.reader.Some?
      modifies this, valueScript
      ensures Valid()
      ensures valueScript.reader == old(valueScript.reader) && valueScript.docId == Some(docId)
      ensures var key := Key(policy, bucket, millis);
              var value := valueScript.run(valueScript.reader.value, docId);
              && counts == AdjustOrPutLong(old(counts), key, 1, 1)
              && totals == AdjustOrPutDouble(old(totals), key, value, value)
    {
      valueScript.SetNextDocId(docId);
      var key := Key(policy, bucket, millis);
      counts := AdjustOrPutLong(counts, key, 1, 1);
      var scriptValue := valueScript.RunAsDouble();
      totals := AdjustOrPutDouble(totals, key, scriptValue, scriptValue);
    }

    method Counts() returns (c: map<Long, int>)
      requires Valid()
      ensures c == counts
      ensures forall k :: k in c ==> c[k] >= 1
    {
      c := counts;
    }

    method Totals() returns (t: map<Long, real>)
      requires Valid()
      ensures t == totals
      ensures t.Keys == counts.Keys
    {
      t := totals;
    }
  }

  class ValueScriptDateHistogramFacetCollector {
    const facetName: string
    const comparatorType: ComparatorType
    const fieldDataCache: FieldDataCache
    const indexFieldName: string
    const fieldDataType: FieldDataType
    const valueScript: SearchScript
    const histoProc: DateHistogramProc
    var fieldData: Option<LongFieldData>

    /**
     * The processor evaluates the collector's own script, and once field data is bound
     * the script is bound to the same segment the field data was loaded for.
     */
    ghost predicate Valid()
      reads this, histoProc, valueScript
    {
      && histoProc.valueScript == valueScript
      && histoProc.Valid()
      && (fieldData.Some? ==>
            && valueScript.reader.Some?
            && fieldData.value == fieldDataCache(fieldDataType, valueScript.reader.value, indexFieldName))
    }

    /** The constructor once the field's mapper is known: it picks the processor from the interval. */
    constructor (facetName: string, mapper: FieldMapper, fieldDataCache: FieldDataCache, script: Script,
                 interval: Long, bucket: BucketFn, comparatorType: ComparatorType)
      ensures Valid() && fresh(histoProc) && fresh(valueScript)
      ensures this.facetName == facetName && this.comparatorType == comparatorType
      ensures this.fieldDataCache == fieldDataCache && valueScript.run == script
      ensures indexFieldName == mapper.indexName && fieldDataType == mapper.fieldDataType
      ensures fieldData == None && valueScript.reader == None
      ensures histoProc.policy == ChoosePolicy(interval) && histoProc.bucket == bucket
      ensures histoProc.counts == map[] && histoProc.totals == map[]
    {
      this.facetName := facetName;
      this.comparatorType := comparatorType;
      this.fieldDataCache := fieldDataCache;
      var s := new SearchScript(script);
      valueScript := s;
      indexFieldName := mapper.indexName;
      fieldDataType := mapper.fieldDataType;
      if interval == 1 {
        histoProc := new DateHistogramProc(Identity, bucket, s);
      } else {
        histoProc := new DateHistogramProc(Interval(interval), bucket, s);
      }
      fieldData := None;
    }

    /**
     * The full construction: fails with the "no mapping" error, creating nothing,
     * when the field has no mapper; otherwise a fresh collector with empty maps.
     */
    static method Create(facetName: string, fieldName: string, smartName: map<string, SmartNameFieldMappers>,
                         fieldDataCache: FieldDataCache, script: Script, interval: Long, bucket: BucketFn,
                         comparatorType: ComparatorType)
      returns (r: Result<ValueScriptDateHistogramFacetCollector, FacetPhaseExecutionException>)
      ensures r.Failure? <==> fieldName !in smartName || smartName[fieldName].mapper.None?
      ensures r.Failure? ==> r.error == FacetPhaseExecutionException(facetName, NoMappingMessage(fieldName))
      ensures r.Success? ==>
                var c := r.value;
                && fresh(c) && fresh(c.histoProc) && fresh(c.valueScript) && c.Valid()
                && c.facetName == facetName && c.comparatorType == comparatorType
                && c.fieldDataCache == fieldDataCache
                && c.valueScript.run == script && c.valueScript.reader == None
                && c.histoProc.bucket == bucket
                && c.indexFieldName == smartName[fieldName].mapper.value.indexName
                && c.fieldDataType == smartName[fieldName].mapper.value.fieldDataType
                && c.fieldData == None
                && c.histoProc.policy == ChoosePolicy(interval)
                && c.histoProc.counts == map[] && c.histoProc.totals == map[]
    {
      var mapper := ResolveMapper(smartName, facetName, fieldName);
      if mapper.Failure? {
        return Failure(mapper.error);
      }
      var c := new ValueScriptDateHistogramFacetCollector(
        facetName, mapper.value, fieldDataCache, script, interval, bucket, comparatorType);
      return Success(c);
    }

    /** Binds field data and the value script to the next segment, in lockstep. */
    method DoSetNextReader(reader: int)
      requires Valid()
      modifies this, valueScript
      ensures Valid()
      ensures fieldData == Some(fieldDataCache(fieldDataType, reader, indexFieldName))
      ensures valueScript.reader == Some(reader) && valueScript.docId == old(valueScript.docId)
      ensures unchanged(histoProc)
    {
      fieldData := Some(fieldDataCache(fieldDataType, reader, indexFieldName));
      valueScript.SetNextReader(reader);
    }

    /**
     * Feeds every value of the document, in order and without deduplication, to the
     * processor: the maps absorb exactly one observation per value.
     */
    method DoCollect(doc: int)
      requires Valid() && fieldData.Some?
      modifies histoProc, valueScript
      ensures Valid()
      ensures valueScript.reader == old(valueScript.reader)
      ensures valueScript.docId == if fieldData.value(doc) == [] then old(valueScript.docId) else Some(doc)
      ensures var obs := DocObservations(histoProc.policy, histoProc.bucket, valueScript.run,
                                         valueScript.reader.value, doc, fieldData.value(doc));
              && histoProc.counts == AddCounts(old(histoProc.counts), obs)
              && histoProc.totals == AddTotals(old(histoProc.totals), obs)
      ensures SumValues(histoProc.counts) == SumValues(old(histoProc.counts)) + |fieldData.value(doc)|
    {
      var values := fieldData.value(doc);
      ghost var obs := DocObservations(histoProc.policy, histoProc.bucket, valueScript.run,
                                       valueScript.reader.value, doc, values);
      var i := 0;
      while i < |values|
        invariant 0 <= i <= |values|
        invariant Valid()
        invariant valueScript.reader == old(valueScript.reader)
        invariant valueScript.docId == if i == 0 then old(valueScript.docId) else Some(doc)
        invariant histoProc.counts == AddCounts(old(histoProc.counts), obs[..i])
        invariant histoProc.totals == AddTotals(old(histoProc.totals), obs[..i])
      {
        AddStep(old(histoProc.counts), old(histoProc.totals), obs, i);
        histoProc.OnValue(doc, values[i]);
        i := i + 1;
      }
      assert obs[..i] == obs;
      AddCountsTotal(old(histoProc.counts), obs);
    }

    /** The facet: this collector's name and comparator with the processor's two maps. */
    method Facet() returns (f: CountAndTotalFacet)
      requires Valid()
      ensures f.name == facetName && f.comparatorType == comparatorType
      ensures f.counts == histoProc.counts && f.totals == histoProc.totals
      ensures f.counts.Keys == f.totals.Keys
    {
      var counts := histoProc.Counts();
      var totals := histoProc.Totals();
      f := CountAndTotalFacet(facetName, comparatorType, counts, totals);
    }
  }
}
