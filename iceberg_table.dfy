/** iceberg_table.py: the S3 URI of an Iceberg table's current metadata file, the
    `*.metadata.json` file in its `metadata` directory whose name sorts last. */
module IcebergTable {
  import opened Wrappers
  import opened Order

  const MetadataSuffix: string := ".metadata.json"

  /** The directory listed: `f"{s3_bucket_name}/{table_path}/metadata"`. */
  function MetadataDir(bucket: string, tablePath: string): string {
    bucket + "/" + tablePath + "/metadata"
  }

  /** `s.endswith(suffix)`. */
  predicate EndsWith(s: string, suffix: string) {
    |suffix| <= |s| && s[|s| - |suffix|..] == suffix
  }

  /** The metadata files of a listing, in listing order. */
  function Candidates(files: seq<string>): (r: seq<string>)
    ensures forall f :: f in r <==> f in files && EndsWith(f, MetadataSuffix)
    decreases |files|
  {
    if |files| == 0 then []
    else
      var rest := Candidates(files[..|files| - 1]);
      var f := files[|files| - 1];
      if EndsWith(f, MetadataSuffix) then rest + [f] else rest
  }

  /** `f"s3://{sorted(metadata_json_files)[-1]}"`, or IndexError for an empty list. */
  function Latest(candidates: seq<string>): Result<string, PyError> {
    if |candidates| == 0 then Err(IndexError)
    else
      var names := set f | f in candidates;
      assert candidates[0] in names;
      Ok("s3://" + Greatest(names))
  }

  /** What `current_metadata_file_s3_uri` returns for the listing of the metadata directory
      (`ls` is the S3 listing). */
  function CurrentMetadataUri(bucket: string, tablePath: string, ls: string -> seq<string>): Result<string, PyError> {
    Latest(Candidates(ls(MetadataDir(bucket, tablePath))))
  }

  /** The filtering loop, then the selection. */
  method CurrentMetadataFileUri(bucket: string, tablePath: string, ls: string -> seq<string>)
    returns (r: Result<string, PyError>)
    ensures r == CurrentMetadataUri(bucket, tablePath, ls)
  {
    var bucketPath := bucket + "/" + tablePath + "/metadata";
    var files := ls(bucketPath);
    var metadataJsonFiles: seq<string> := [];
    for i := 0 to |files|
      invariant metadataJsonFiles == Candidates(files[..i])
    {
      var f := files[i];
      assert files[..i + 1][..i] == files[..i] && files[..i + 1][i] == f;
      if EndsWith(f, MetadataSuffix) {
        metadataJsonFiles := metadataJsonFiles + [f];
      }
    }
    assert files[..|files|] == files;
    r := Latest(metadataJsonFiles);
  }

  /** The URI names a listed metadata file that sorts after every other; there is one
      exactly when some listed name ends in `.metadata.json`, and IndexError otherwise. */
  lemma {:induction false} LatestIsGreatest(files: seq<string>)
    ensures Latest(Candidates(files)).Err? <==> forall f :: f in files ==> !EndsWith(f, MetadataSuffix)
    ensures Latest(Candidates(files)).Err? ==> Latest(Candidates(files)) == Err(IndexError)
    ensures Latest(Candidates(files)).Ok? ==>
      exists f :: f in files && EndsWith(f, MetadataSuffix) && Latest(Candidates(files)).value == "s3://" + f
        && forall g :: g in files && EndsWith(g, MetadataSuffix) ==> LessEq(g, f)
  {
    var c := Candidates(files);
    if |c| > 0 {
      var names := set f | f in c;
      assert c[0] in names;
      var m := Greatest(names);
      assert m in files && EndsWith(m, MetadataSuffix);
    }
  }

  /** The order of the listing does not matter: listings with the same names give the same
      URI. */
  lemma {:induction false} ListingOrderIrrelevant(a: seq<string>, b: seq<string>)
    requires forall f :: f in a <==> f in b
    ensures Latest(Candidates(a)) == Latest(Candidates(b))
  {
    var ca := Candidates(a);
    var cb := Candidates(b);
    assert (set f | f in ca) == (set f | f in cb);
    if |ca| > 0 {
      assert ca[0] in (set f | f in cb);
    }
    if |cb| > 0 {
      assert cb[0] in (set f | f in ca);
    }
  }
}
