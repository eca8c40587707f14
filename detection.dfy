/** The second version detector and metadata-URL builder
    (`utils/odata/detection.ts`): a substring classifier of metadata text and
    a builder that appends `$metadata` to a service URL. */
module Detection {
  import opened Text
  import opened ODataHelper

  /** The classification of metadata text, markers tested in order:
      `Version="4.0"`; `Version="1.0"` with `DataServiceVersion="2.0"` or
      `"1.0"`; `edmx:Edmx Version="1.0"`; `edmx:Edmx Version="3.0"`; the OASIS
      edmx namespace; the Microsoft 2007/06 edmx namespace. */
  function DetectContent(content: string): (v: ODataVersion)
    ensures Contains(content, "Version=\"4.0\"") ==> v == V4
    ensures v == Unknown <==>
      !Contains(content, "Version=\"4.0\"")
      && !(Contains(content, "Version=\"1.0\"") && Contains(content, "DataServiceVersion=\"2.0\""))
      && !(Contains(content, "Version=\"1.0\"") && Contains(content, "DataServiceVersion=\"1.0\""))
      && !Contains(content, "edmx:Edmx Version=\"1.0\"")
      && !Contains(content, "edmx:Edmx Version=\"3.0\"")
      && !Contains(content, "http://docs.oasis-open.org/odata/ns/edmx")
      && !Contains(content, "http://schemas.microsoft.com/ado/2007/06/edmx")
  {
    if Contains(content, "Version=\"4.0\"") then V4
    else if Contains(content, "Version=\"1.0\"") && Contains(content, "DataServiceVersion=\"2.0\"") then V2
    else if Contains(content, "Version=\"1.0\"") && Contains(content, "DataServiceVersion=\"1.0\"") then V2
    else if Contains(content, "edmx:Edmx Version=\"1.0\"") then V2
    else if Contains(content, "edmx:Edmx Version=\"3.0\"") then V3
    else if Contains(content, "http://docs.oasis-open.org/odata/ns/edmx") then V4
    else if Contains(content, "http://schemas.microsoft.com/ado/2007/06/edmx") then V2
    else Unknown
  }

  /** The two detectors agree on V4 by version attribute: whatever the
      dashboard's parser classifies as V4, this one does too. */
  lemma DetectorsAgreeOnV4(content: string)
    requires ParseVersionFromXml(content) == V4
    ensures DetectContent(content) == V4
  {
  }

  /** Whatever this detector classifies as V3 the dashboard's parser classifies
      as V3 or V2: the `edmx:Edmx Version="3.0"` marker contains
      `Version="3.0"`, and only a V4 or V1/V2 version attribute overrides it there. */
  lemma DetectorsOnV3(content: string)
    requires DetectContent(content) == V3
    ensures ParseVersionFromXml(content) == V3 || ParseVersionFromXml(content) == V2
  {
    var marker := "edmx:Edmx Version=\"3.0\"";
    var i := IndexOf(content, marker);
    SuffixOccurs(content, marker, i, 10);
    assert marker[10..] == "Version=\"3.0\"";
  }

  lemma SuffixOccurs(s: string, sub: string, i: int, k: nat)
    requires OccursAt(s, sub, i) && k <= |sub|
    ensures Contains(s, sub[k..])
  {
    assert s[i + k..i + |sub|] == sub[k..];
    ContainsAt(s, sub[k..], i + k);
  }

  /** `probeMetadataUrl`: the trimmed URL if it already ends in `$metadata`
      (compared lower-case), otherwise the URL, one `/` unless it already
      ends in one, and `$metadata`. */
  function ProbeMetadataUrl(url: string): (r: string)
    ensures EndsWith(ToLower(r), "$metadata")
    ensures Trim(url) <= r
    ensures EndsWith(ToLower(Trim(url)), "$metadata") ==> r == Trim(url)
    ensures !EndsWith(ToLower(Trim(url)), "$metadata") && EndsWith(Trim(url), "/") ==> |r| == |Trim(url)| + 9
    ensures !EndsWith(ToLower(Trim(url)), "$metadata") && !EndsWith(Trim(url), "/") ==>
      |r| == |Trim(url)| + 10 && r[|Trim(url)|] == '/'
  {
    var cleanUrl := Trim(url);
    if EndsWith(ToLower(cleanUrl), "$metadata") then cleanUrl
    else
      var separator := if EndsWith(cleanUrl, "/") then "" else "/";
      var candidate := cleanUrl + separator + "$metadata";
      MetadataSuffix(cleanUrl + separator);
      candidate
  }

  lemma LowerMetadataWord()
    ensures ToLower("$metadata") == "$metadata"
  {
    var t := "$metadata";
    assert forall i :: 0 <= i < |t| ==> !('A' <= t[i] <= 'Z');
  }

  lemma MetadataSuffix(prefix: string)
    ensures EndsWith(ToLower(prefix + "$metadata"), "$metadata")
    ensures prefix <= prefix + "$metadata"
  {
    var s := prefix + "$metadata";
    assert s[|s| - 9..] == "$metadata";
    LowerEndsWith(s, "$metadata");
    LowerMetadataWord();
  }

  lemma TrimTrimmed(s: string)
    requires s == [] || (!IsJsSpace(s[0]) && !IsJsSpace(s[|s| - 1]))
    ensures Trim(s) == s
  {
    TrimBothEnds(s);
    if s != [] {
      assert TrimStart(s) == s;
    }
  }

  lemma TrimIdempotent(s: string)
    ensures Trim(Trim(s)) == Trim(s)
  {
    var t := Trim(s);
    assert t == [] || (!IsJsSpace(t[0]) && !IsJsSpace(t[|t| - 1])) by {
      TrimBothEnds(s);
      var u := TrimStart(s);
      if t != [] {
        assert t[0] == u[0];
      }
    }
    TrimTrimmed(t);
  }

  /** A probed URL has no surrounding white space. */
  lemma ProbeTrimmed(url: string)
    ensures Trim(ProbeMetadataUrl(url)) == ProbeMetadataUrl(url)
  {
    var t := Trim(url);
    var r := ProbeMetadataUrl(url);
    if !EndsWith(ToLower(t), "$metadata") {
      assert r[|r| - 1] == 'a' by {
        assert r[|r| - 9..] == "$metadata";
      }
      assert !IsJsSpace(r[0]) by {
        if t != [] {
          assert r[0] == t[0];
          TrimBothEnds(url);
          var u := TrimStart(url);
          assert t <= u;
        } else {
          assert r[0] == '/';
        }
      }
      TrimTrimmed(r);
    } else {
      TrimIdempotent(url);
    }
  }

  /** Probing a probed URL changes nothing. */
  lemma ProbeIdempotent(url: string)
    ensures ProbeMetadataUrl(ProbeMetadataUrl(url)) == ProbeMetadataUrl(url)
  {
    ProbeTrimmed(url);
  }
}
