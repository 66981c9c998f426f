/** Normalisation of the spatial reference of a direct render request (`render`). */
module Srs {
  import opened Strings

  /** The spherical Web-Mercator projection, as a proj4 string. */
  const Mercator: string :=
    "+proj=merc" + " +a=6378137 +b=6378137" + " +lat_ts=0.0 +lon_0=0.0" + " +x_0=0.0 +y_0=0 +k=1.0" + " +units=m +nadgrids=@null"

  /** An EPSG code: the lower-cased text starts with `epsg`. */
  predicate IsEpsg(srs: string)
  {
    StartsWith(Lower(srs), "epsg")
  }

  lemma PlusIsNotEpsg(s: string)
    requires s != [] && s[0] == '+'
    ensures !IsEpsg(s)
  {
    assert Lower(s)[0] == '+';
  }

  /** EPSG codes become proj4 strings: the two Web-Mercator codes the fixed Mercator
      string, any other code `+init=` and the lower-cased code. Other text is kept. */
  function NormalizeSrs(srs: string): (r: string)
    ensures !IsEpsg(r)
    ensures IsEpsg(srs) ==> r != [] && r[0] == '+'
    ensures !IsEpsg(srs) ==> r == srs
  {
    if IsEpsg(srs) then
      var r := if EndsWith(srs, "900913") || EndsWith(srs, "3857") then Mercator else "+init=" + Lower(srs);
      PlusIsNotEpsg(r);
      r
    else srs
  }

  /** Normalising twice is normalising once. */
  lemma NormalizeIdempotent(srs: string)
    ensures NormalizeSrs(NormalizeSrs(srs)) == NormalizeSrs(srs)
  {
  }

  /** The Mercator string of the tile store passes through unchanged. */
  lemma MercatorIsNormal()
    ensures NormalizeSrs(Mercator) == Mercator
  {
    PlusIsNotEpsg(Mercator);
  }

  /** An EPSG code ending in a Web-Mercator number gives the Mercator string. */
  lemma NormalizeMercator(srs: string)
    requires IsEpsg(srs) && (EndsWith(srs, "900913") || EndsWith(srs, "3857"))
    ensures NormalizeSrs(srs) == Mercator
  {
  }

  /** Any other EPSG code becomes an `+init=` reference to the lower-cased code. */
  lemma NormalizeInit(srs: string)
    requires IsEpsg(srs) && !EndsWith(srs, "900913") && !EndsWith(srs, "3857")
    ensures NormalizeSrs(srs) == "+init=" + Lower(srs)
  {
  }

  /** `EPSG:3857`, in capitals, is a Web-Mercator code. */
  lemma NormalizeMercatorCode()
    ensures NormalizeSrs("EPSG:3857") == Mercator
  {
    var s := "EPSG:3857";
    assert Lower(s)[..4] == "epsg";
    assert s[|s| - 4..] == "3857";
    NormalizeMercator(s);
  }

  /** `EPSG:4326` becomes `+init=epsg:4326`. */
  lemma NormalizeOtherCode()
    ensures NormalizeSrs("EPSG:4326") == "+init=epsg:4326"
  {
    var s := "EPSG:4326";
    LowerCode4326();
    assert s[|s| - 4..][0] != "3857"[0];
    assert s[|s| - 6..][0] != "900913"[0];
    NormalizeInit(s);
  }

  lemma LowerCode4326()
    ensures Lower("EPSG:4326") == "epsg:4326"
  {
    var l := Lower("EPSG:4326");
    assert l[0] == 'e' && l[1] == 'p' && l[2] == 's' && l[3] == 'g' && l[4] == ':';
    assert l[5] == '4' && l[6] == '3' && l[7] == '2' && l[8] == '6';
  }
}
