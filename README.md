# Value-script date histogram facet collector, modelled in Dafny

This project models the collector behind Elasticsearch's date histogram facet
when a value script is configured. For every value of every collected document
the collector turns the timestamp into a bucket key. With interval 1 the key is
the raw millis. Otherwise it is the interval bucket. The collector then updates two
hash maps with increment-or-insert semantics: `counts` (key -> number of values)
and `totals` (key -> sum of the script's value for the document). At the end it
hands both maps out as the facet.

Files:

- `wrappers.dfy` (module `Wrappers`): `Option` and `Result`.
- `histogram.dfy` (module `DateHistogram`): the pure part. It holds the processor
  choice (`ChoosePolicy`), the bucket key (`Key`) and the Trove `adjustOrPutValue`
  operations. `AddCounts` and `AddTotals` give the maps after a run of observations.
  The reference definitions `Occurrences` and `SumFor` are the partner: per bucket,
  the number of observations and the sum of their values. The lemmas connect the two.
- `collector.dfy` (module `FacetCollector`): the stateful part as classes.
  - `SearchScript` is the value script's binding protocol: set the reader, set the doc id, run.
  - `DateHistogramProc` owns `counts` and `totals` as map fields. Its `OnValue` updates
    them in place. Both of the source's processors are this one class: a `Policy`
    value replaces the subclass that overrides `onValue`.
  - `ValueScriptDateHistogramFacetCollector` holds the mapping check (`Create`), the
    processor choice (constructor), the segment binding (`DoSetNextReader`), the loop
    over a document's values (`DoCollect`) and `Facet`.

Collaborators become parameters:

- The interval bucket function `CountDateHistogramFacetCollector.bucket` is a
  `BucketFn`. The only assumption is that it is a total function from two longs to
  a long, so it never throws, not even for interval 0.
- The compiled script is `Script`, a function of (reader, doc) to a value.
- The field data cache is `FieldDataCache`, a function of (field data type, reader,
  index field name) to the segment's field data. Field data is a function from doc to
  the doc's values.
- The mapper service is a map from field name to `SmartNameFieldMappers`. A missing
  entry stands for `null`.

## Model

| member | source | states |
|---|---|---|
| `DateHistogram.ChoosePolicy` | modules/elasticsearch/src/main/java/org/elasticsearch/search/facet/datehistogram/ValueScriptDateHistogramFacetCollector.java:87-91 | the identity processor is chosen exactly when the interval is 1; any other interval selects the interval processor with that interval |
| `DateHistogram.ChosenKey` | modules/elasticsearch/src/main/java/org/elasticsearch/search/facet/datehistogram/ValueScriptDateHistogramFacetCollector.java:119-155 | under the chosen processor a timestamp is keyed by its raw millis when the interval is 1, and by `bucket(millis, interval)` otherwise |
| `DateHistogram.Key` | modules/elasticsearch/src/main/java/org/elasticsearch/search/facet/datehistogram/ValueScriptDateHistogramFacetCollector.java:122-151 | the identity processor keys a value by its raw millis (line 122); the interval processor keys it by `bucket(millis, interval)` (line 151) |
| `DateHistogram.AdjustOrPutLong` | modules/elasticsearch/src/main/java/org/elasticsearch/search/facet/datehistogram/ValueScriptDateHistogramFacetCollector.java:123 | the key is added to the key set; a present key's count rises by the adjustment, an absent key gets the put value; every other key keeps its count |
| `DateHistogram.AdjustOrPutDouble` | modules/elasticsearch/src/main/java/org/elasticsearch/search/facet/datehistogram/ValueScriptDateHistogramFacetCollector.java:125 | the same for totals: a present key's total rises by the script value, an absent key gets the script value, other keys are untouched |
| `DateHistogram.AddCounts` | modules/elasticsearch/src/main/java/org/elasticsearch/search/facet/datehistogram/ValueScriptDateHistogramFacetCollector.java:123 | repeating the count update of line 123 for each observation, in order, leaves exactly the old buckets plus the observed keys |
| `DateHistogram.AddTotals` | modules/elasticsearch/src/main/java/org/elasticsearch/search/facet/datehistogram/ValueScriptDateHistogramFacetCollector.java:125 | repeating the total update of line 125 for each observation, in order, leaves exactly the old buckets plus the observed keys |
| `DateHistogram.DocObservations` | modules/elasticsearch/src/main/java/org/elasticsearch/search/facet/datehistogram/ValueScriptDateHistogramFacetCollector.java:95 | the values of a document give one `onValue` call each, in order: the i-th carries the i-th value's key and the document's script value |
| `DateHistogram.AddCountsPerKey` | modules/elasticsearch/src/main/java/org/elasticsearch/search/facet/datehistogram/ValueScriptDateHistogramFacetCollector.java:119-126 | after a run of observations a bucket exists iff it existed or was observed, and its count is its old count plus the number of observations keyed to it |
| `DateHistogram.AddTotalsPerKey` | modules/elasticsearch/src/main/java/org/elasticsearch/search/facet/datehistogram/ValueScriptDateHistogramFacetCollector.java:119-126 | after a run of observations a bucket exists iff it existed or was observed, and its total is its old total plus the sum of the script values observed in it |
| `DateHistogram.SameKeys` | modules/elasticsearch/src/main/java/org/elasticsearch/search/facet/datehistogram/ValueScriptDateHistogramFacetCollector.java:152-154 | `counts` and `totals` that start with the same key set keep identical key sets through any run of observations |
| `DateHistogram.CountsPositive` | modules/elasticsearch/src/main/java/org/elasticsearch/search/facet/datehistogram/ValueScriptDateHistogramFacetCollector.java:123 | counts never decrease, and a bucket that is created starts at least at 1 |
| `DateHistogram.SingleBucket` | modules/elasticsearch/src/main/java/org/elasticsearch/search/facet/datehistogram/ValueScriptDateHistogramFacetCollector.java:123-125 | N observations of one key on empty maps give exactly that one bucket with count N and total the sum of the N values |
| `DateHistogram.SumValuesAdjust` | modules/elasticsearch/src/main/java/org/elasticsearch/search/facet/datehistogram/ValueScriptDateHistogramFacetCollector.java:152 | one adjust-or-put of 1 raises the sum of all counts by exactly 1, whether the key is new or present |
| `DateHistogram.AddCountsTotal` | modules/elasticsearch/src/main/java/org/elasticsearch/search/facet/datehistogram/ValueScriptDateHistogramFacetCollector.java:94-96 | n observations raise the sum of all counts by exactly n |
| `DateHistogram.DocOccurrences` | modules/elasticsearch/src/main/java/org/elasticsearch/search/facet/datehistogram/ValueScriptDateHistogramFacetCollector.java:94-96 | a document with n values yields n observations, none deduplicated; bucket k gets one per value keyed k, each carrying the document's script value |
| `DateHistogram.CollectDocPerKey` | modules/elasticsearch/src/main/java/org/elasticsearch/search/facet/datehistogram/ValueScriptDateHistogramFacetCollector.java:94-96 | collecting a document adds, to bucket k, one count per value keyed k and that many times the document's script value; counts and totals gain the same buckets |
| `FacetCollector.ResolveMapper` | modules/elasticsearch/src/main/java/org/elasticsearch/search/facet/datehistogram/ValueScriptDateHistogramFacetCollector.java:70-73 | it fails iff the field has no mapper (no entry or no mapper in it); the error carries the facet name and "No mapping found for field [name]"; otherwise it returns that mapper |
| `FacetCollector.SearchScript.SetNextReader` | modules/elasticsearch/src/main/java/org/elasticsearch/search/facet/datehistogram/ValueScriptDateHistogramFacetCollector.java:100 | the script is bound to the given segment; the document binding is kept |
| `FacetCollector.SearchScript.SetNextDocId` | modules/elasticsearch/src/main/java/org/elasticsearch/search/facet/datehistogram/ValueScriptDateHistogramFacetCollector.java:120 | the script is bound to the given document; the segment binding is kept |
| `FacetCollector.SearchScript.RunAsDouble` | modules/elasticsearch/src/main/java/org/elasticsearch/search/facet/datehistogram/ValueScriptDateHistogramFacetCollector.java:124 | once bound to a segment and a document, the script's value is its function of that segment and document |
| `FacetCollector.DateHistogramProc.constructor` | modules/elasticsearch/src/main/java/org/elasticsearch/search/facet/datehistogram/ValueScriptDateHistogramFacetCollector.java:111-117 | a processor starts with empty `counts` and `totals` and keeps the script it is given |
| `FacetCollector.DateHistogramProc.OnValue` | modules/elasticsearch/src/main/java/org/elasticsearch/search/facet/datehistogram/ValueScriptDateHistogramFacetCollector.java:119-155 | the script is bound to the document; `counts` and `totals` are adjusted-or-put under the one key of the processor's policy, with 1 and the script value; the shared key set and positive counts are kept |
| `FacetCollector.DateHistogramProc.Counts` | modules/elasticsearch/src/main/java/org/elasticsearch/search/facet/datehistogram/ValueScriptDateHistogramFacetCollector.java:129-131 | returns the processor's counts, every one of them at least 1 |
| `FacetCollector.DateHistogramProc.Totals` | modules/elasticsearch/src/main/java/org/elasticsearch/search/facet/datehistogram/ValueScriptDateHistogramFacetCollector.java:133-135 | returns the processor's totals, whose key set is that of the counts |
| `FacetCollector.ValueScriptDateHistogramFacetCollector.constructor` | modules/elasticsearch/src/main/java/org/elasticsearch/search/facet/datehistogram/ValueScriptDateHistogramFacetCollector.java:80-91 | with a resolved mapper: the index name and field data type come from it, no field data is bound, and a fresh processor with empty maps uses the policy chosen from the interval |
| `FacetCollector.ValueScriptDateHistogramFacetCollector.Create` | modules/elasticsearch/src/main/java/org/elasticsearch/search/facet/datehistogram/ValueScriptDateHistogramFacetCollector.java:64-92 | construction fails with the no-mapping error iff the field has no mapper, allocating nothing; otherwise a fresh collector with the mapper's index name and field data type, the given cache, script, bucket function and comparator, an unbound script, no field data, and a fresh processor with empty maps using the policy chosen from the interval |
| `FacetCollector.ValueScriptDateHistogramFacetCollector.DoSetNextReader` | modules/elasticsearch/src/main/java/org/elasticsearch/search/facet/datehistogram/ValueScriptDateHistogramFacetCollector.java:98-101 | field data is the cache's entry for this field and segment, the script is bound to the same segment with its document binding kept, and the maps are untouched |
| `FacetCollector.ValueScriptDateHistogramFacetCollector.DoCollect` | modules/elasticsearch/src/main/java/org/elasticsearch/search/facet/datehistogram/ValueScriptDateHistogramFacetCollector.java:94-96 | every value of the document, in order, is one observation folded into `counts` and `totals`; the sum of all counts grows by exactly the number of values; the script ends bound to the document if it had values, otherwise its binding is unchanged |
| `FacetCollector.ValueScriptDateHistogramFacetCollector.Facet` | modules/elasticsearch/src/main/java/org/elasticsearch/search/facet/datehistogram/ValueScriptDateHistogramFacetCollector.java:103-105 | the facet carries the collector's name and comparator and exactly the processor's counts and totals, which share one key set |

## Left out

- The time zone adjustment through `MutableDateTime` (line 95) is not modelled: a document's values are used as the millis directly.
- The type filter for fields with a known document mapper (lines 75-78) belongs to the filter cache and is not modelled.
- Script compilation through the script service (line 80) is not modelled: the compiled script is given as a function of segment and document.
- `CountDateHistogramFacetCollector.bucket` is not part of this model. It is an unconstrained parameter, so nothing is claimed about floor alignment, idempotence or negative timestamps. The source does not check that the interval is positive: an interval of 0 or less also selects the interval processor, and the model does the same.
- DateHistogram.AdjustOrPutDouble: totals are exact sums of reals, not IEEE doubles, so rounding, overflow to infinity and NaN are not modelled.
- DateHistogram.AdjustOrPutLong: counts are unbounded integers; the 64-bit wrap-around of a Java `long` count is not modelled.
- FacetCollector.ValueScriptDateHistogramFacetCollector.Facet: the source hands out the processor's own mutable hash maps; the model's maps are values, so the aliasing between facet and processor is not captured.
- Building and serialising `InternalCountAndTotalDateHistogramFacet` is not modelled beyond the record `CountAndTotalFacet`; the comparator type is only forwarded.
- I/O errors from the field data cache and failures of the script are not modelled. The shared key set of `counts` and `totals` holds only for runs where the script does not throw: line 123 updates `counts` before the script runs at line 124, so a throwing script leaves a bucket in `counts` that `totals` lacks.
- Merging facets across segments or shards happens outside this class and is not modelled.
