/** The mock lookup `fetchPlantingInfo`: a fixed planting window and a list of
    suggested crops that surfaces the user's crop when it is not a default one. */
module PlantingApi {
  import opened Text

  /** The record the lookup resolves with. */
  datatype PlantingData = PlantingData(optimalTime: string, topCrops: seq<string>)

  const OptimalTime: string := "Mid-April to Early-May"
  const DefaultCrops: seq<string> := ["Corn", "Soybeans", "Wheat"]

  /** The filter's test: two crop names agree once both are lower-cased. */
  predicate SameCrop(a: string, b: string): (r: bool)
    ensures a == b ==> r
    ensures r ==> |a| == |b|  // ASCII model: lower-casing keeps the length
  {
    ToLower(a) == ToLower(b)
  }

  /** The guard: the crop's lower-case form is one of the three default names
      (`GuardMatchesDefaults`: the crop matches a default crop ignoring case). */
  predicate IsDefaultCrop(crop: string): (r: bool)
    ensures r ==> |crop| == 4 || |crop| == 8 || |crop| == 5  // ASCII model
  {
    ToLower(crop) == "corn" || ToLower(crop) == "soybeans" || ToLower(crop) == "wheat"
  }

  /** `crops.filter(c => c.toLowerCase() !== crop.toLowerCase())`. */
  function WithoutCrop(crops: seq<string>, crop: string): (r: seq<string>)
    ensures |r| <= |crops|
    ensures forall c :: c in r <==> c in crops && !SameCrop(c, crop)
  {
    if crops == [] then []
    else if SameCrop(crops[0], crop) then WithoutCrop(crops[1..], crop)
    else [crops[0]] + WithoutCrop(crops[1..], crop)
  }

  /** What the lookup resolves with for a zip code and a crop. */
  function PlantingInfo(zipCode: string, crop: string): (r: PlantingData)
    ensures r.optimalTime == "Mid-April to Early-May"
  {
    if IsDefaultCrop(crop) then PlantingData(OptimalTime, DefaultCrops)
    else PlantingData(OptimalTime, [crop] + WithoutCrop(DefaultCrops, crop))
  }

  /** The filter seen from position `i`: the entry there is kept or dropped,
      then the rest is filtered. */
  lemma WithoutCropStep(crops: seq<string>, i: nat, crop: string)
    requires i < |crops|
    ensures WithoutCrop(crops[i..], crop) ==
      (if SameCrop(crops[i], crop) then [] else [crops[i]]) + WithoutCrop(crops[i + 1..], crop)
  {
    assert crops[i..][1..] == crops[i + 1..];
  }

  /** The array method `filter` with the page's callback: keep, in order, the
      entries that do not name the crop. */
  method Filter(crops: seq<string>, crop: string) returns (kept: seq<string>)
    ensures kept == WithoutCrop(crops, crop)
  {
    kept := [];
    var i := 0;
    while i < |crops|
      invariant 0 <= i <= |crops|
      invariant kept + WithoutCrop(crops[i..], crop) == WithoutCrop(crops, crop)
    {
      WithoutCropStep(crops, i, crop);
      if !SameCrop(crops[i], crop) {
        assert kept + WithoutCrop(crops[i..], crop) == (kept + [crops[i]]) + WithoutCrop(crops[i + 1..], crop);
        kept := kept + [crops[i]];
      }
      i := i + 1;
    }
  }

  /** The lookup as the page runs it: build the mock record, then, for a crop
      that is not a default one, replace the list by its filtered copy and put
      the crop in front of it. */
  method FetchPlantingInfo(zipCode: string, crop: string) returns (mockData: PlantingData)
    ensures mockData == PlantingInfo(zipCode, crop)
  {
    mockData := PlantingData(OptimalTime, DefaultCrops);
    if !IsDefaultCrop(crop) {
      var filtered := Filter(mockData.topCrops, crop);
      mockData := mockData.(topCrops := filtered);
      // unshift: the crop goes in front, verbatim
      mockData := mockData.(topCrops := [crop] + mockData.topCrops);
    }
  }

  /** The filter works entry by entry: filtering a concatenation filters each
      part and keeps them in order. */
  lemma {:induction false} WithoutCropAppend(a: seq<string>, b: seq<string>, crop: string)
    ensures WithoutCrop(a + b, crop) == WithoutCrop(a, crop) + WithoutCrop(b, crop)
  {
    if a != [] {
      assert (a + b)[1..] == a[1..] + b;
      WithoutCropAppend(a[1..], b, crop);
    } else {
      assert a + b == b;
    }
  }

  /** The filter keeps every non-matching entry as often as it occurs and drops
      every matching one. */
  lemma {:induction false} WithoutCropCounts(crops: seq<string>, crop: string)
    ensures forall c ::
      multiset(WithoutCrop(crops, crop))[c] == (if SameCrop(c, crop) then 0 else multiset(crops)[c])
  {
    if crops != [] {
      WithoutCropCounts(crops[1..], crop);
      assert crops == [crops[0]] + crops[1..];
      assert multiset(crops) == multiset([crops[0]]) + multiset(crops[1..]);
    }
  }

  /** The filter removes nothing from a list none of whose entries match. */
  lemma {:induction false} WithoutCropKeepsUnmatched(crops: seq<string>, crop: string)
    requires forall c :: c in crops ==> !SameCrop(c, crop)
    ensures WithoutCrop(crops, crop) == crops
  {
    if crops != [] {
      assert crops[0] in crops;
      WithoutCropKeepsUnmatched(crops[1..], crop);
      assert crops == [crops[0]] + crops[1..];
    }
  }

  /** The lower-case forms of the three default names. */
  lemma CornLowered()
    ensures ToLower("Corn") == "corn"
  {
    CapitalisedLowered("Corn");
  }

  lemma SoybeansLowered()
    ensures ToLower("Soybeans") == "soybeans"
  {
    CapitalisedLowered("Soybeans");
  }

  lemma WheatLowered()
    ensures ToLower("Wheat") == "wheat"
  {
    CapitalisedLowered("Wheat");
  }

  /** Under the guard no default entry matches the crop, so the filter is a no-op. */
  lemma FilterIsNoOp(crop: string)
    requires !IsDefaultCrop(crop)
    ensures forall c :: c in DefaultCrops ==> !SameCrop(c, crop)
    ensures WithoutCrop(DefaultCrops, crop) == DefaultCrops
  {
    CornLowered();
    SoybeansLowered();
    WheatLowered();
    assert !SameCrop("Corn", crop) && !SameCrop("Soybeans", crop) && !SameCrop("Wheat", crop);
    WithoutCropKeepsUnmatched(DefaultCrops, crop);
  }

  /** The guard holds exactly when the crop matches one of the default crops,
      ignoring case. */
  lemma GuardMatchesDefaults(crop: string)
    ensures IsDefaultCrop(crop) <==> exists d :: d in DefaultCrops && SameCrop(d, crop)
  {
    if IsDefaultCrop(crop) {
      CornLowered();
      SoybeansLowered();
      WheatLowered();
      if ToLower(crop) == "corn" {
        assert SameCrop(DefaultCrops[0], crop);
      } else if ToLower(crop) == "soybeans" {
        assert SameCrop(DefaultCrops[1], crop);
      } else {
        assert SameCrop(DefaultCrops[2], crop);
      }
    } else {
      FilterIsNoOp(crop);
    }
  }

  /** The whole list, exactly: the defaults for a default crop (in any case),
      otherwise the crop followed by all three defaults. */
  lemma TopCropsExact(zipCode: string, crop: string)
    ensures PlantingInfo(zipCode, crop).topCrops ==
      if IsDefaultCrop(crop) then DefaultCrops else [crop] + DefaultCrops
  {
    if !IsDefaultCrop(crop) {
      FilterIsNoOp(crop);
    }
  }

  /** A crop outside the defaults comes first, verbatim, is not repeated after the
      first position, and the list has four entries under a "Top 3" heading. */
  lemma NonDefaultCropFirst(zipCode: string, crop: string)
    requires !IsDefaultCrop(crop)
    ensures var t := PlantingInfo(zipCode, crop).topCrops;
      |t| == 4 && t[0] == crop &&
      forall i :: 1 <= i < |t| ==> !SameCrop(t[i], crop)
  {
    TopCropsExact(zipCode, crop);
    FilterIsNoOp(crop);
    var t := PlantingInfo(zipCode, crop).topCrops;
    forall i | 1 <= i < |t| ensures !SameCrop(t[i], crop) {
      assert t[i] in DefaultCrops;
    }
  }

  /** Three or four entries, ending with Corn, Soybeans, Wheat in that order;
      four exactly when the crop is not a default one. */
  lemma TopCropsShape(zipCode: string, crop: string)
    ensures var t := PlantingInfo(zipCode, crop).topCrops;
      3 <= |t| <= 4 && t[|t| - 3..] == DefaultCrops &&
      (|t| == 4 <==> !IsDefaultCrop(crop))
  {
    TopCropsExact(zipCode, crop);
  }

  /** No two entries of a list name the same crop, ignoring case. */
  predicate DistinctCrops(crops: seq<string>) {
    forall i, j :: 0 <= i < j < |crops| ==> !SameCrop(crops[i], crops[j])
  }

  /** Names of different lengths never match, since lower-casing keeps the
      length (true of the ASCII model). */
  lemma LengthsDiffer(a: string, b: string)
    requires |a| != |b|
    ensures !SameCrop(a, b)
  {
    assert |ToLower(a)| != |ToLower(b)|;
  }

  /** The three default names are told apart by the comparison. */
  lemma DefaultsDistinct()
    ensures DistinctCrops(DefaultCrops)
  {
    forall i, j | 0 <= i < j < |DefaultCrops|
      ensures !SameCrop(DefaultCrops[i], DefaultCrops[j])
    {
      LengthsDiffer(DefaultCrops[i], DefaultCrops[j]);
    }
  }

  /** Putting a crop in front of a duplicate-free list that holds no entry
      naming it keeps the list duplicate-free. */
  lemma PrependKeepsDistinct(crop: string, crops: seq<string>)
    requires DistinctCrops(crops)
    requires forall c :: c in crops ==> !SameCrop(c, crop)
    ensures DistinctCrops([crop] + crops)
  {
    var t := [crop] + crops;
    forall i, j | 0 <= i < j < |t| ensures !SameCrop(t[i], t[j]) {
      assert t[j] == crops[j - 1];
      if i == 0 {
        assert crops[j - 1] in crops;
      } else {
        assert t[i] == crops[i - 1];
      }
    }
  }

  /** No two entries of the list name the same crop, ignoring case. */
  lemma NoDuplicateCrops(zipCode: string, crop: string)
    ensures DistinctCrops(PlantingInfo(zipCode, crop).topCrops)
  {
    TopCropsExact(zipCode, crop);
    DefaultsDistinct();
    if !IsDefaultCrop(crop) {
      FilterIsNoOp(crop);
      PrependKeepsDistinct(crop, DefaultCrops);
    }
  }

  /** A name fails the guard when its length is none of the default names'
      lengths, or it has the length of "soybeans" but another first letter. */
  lemma NotDefaultCrop(crop: string)
    requires |crop| != 4 && |crop| != 5
    requires |crop| == 8 ==> LowerChar(crop[0]) != 's'
    ensures !IsDefaultCrop(crop)
  {
    if |crop| == 8 {
      assert ToLower(crop)[0] != "soybeans"[0];
    }
  }

  /** The selector's three default values leave the list alone. */
  lemma DefaultOptions(zipCode: string)
    ensures PlantingInfo(zipCode, "Corn").topCrops == DefaultCrops
    ensures PlantingInfo(zipCode, "Soybeans").topCrops == DefaultCrops
    ensures PlantingInfo(zipCode, "Wheat").topCrops == DefaultCrops
  {
    CornLowered();
    SoybeansLowered();
    WheatLowered();
  }

  /** The selector's two other values, and its empty placeholder, are put in
      front of the defaults. */
  lemma OtherOptions(zipCode: string)
    ensures PlantingInfo(zipCode, "Tomatoes").topCrops == ["Tomatoes"] + DefaultCrops
    ensures PlantingInfo(zipCode, "Potatoes").topCrops == ["Potatoes"] + DefaultCrops
    ensures PlantingInfo(zipCode, "").topCrops == [""] + DefaultCrops
  {
    NotDefaultCrop("Tomatoes");
    NotDefaultCrop("Potatoes");
    NotDefaultCrop("");
    TopCropsExact(zipCode, "Tomatoes");
    TopCropsExact(zipCode, "Potatoes");
    TopCropsExact(zipCode, "");
  }

  /** The zip code plays no part in the answer. */
  lemma ZipCodeIgnored(zip1: string, zip2: string, crop: string)
    ensures PlantingInfo(zip1, crop) == PlantingInfo(zip2, crop)
  {
  }
}
