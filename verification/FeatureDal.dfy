/** The data access layer and the write handlers as uninterrupted calls. Each
    one does what the atomic write does, and leaves both tables alone when it fails. */
module FeatureDal {
  import opened Json
  import opened Features
  import opened Auth
  import opened Writes
  import MP = MergePatch

  class FeatureDAL {
    var features: Table
    var changes: map<ChangeKey, ChangeRecord>

    ghost predicate Valid()
      reads this
    {
      forall key | key in features :: SoundItem(key, features[key])
    }

    /** Both tables after an attempted write. */
    twostate predicate Wrote(req: Request, stamp: Stamp)
      requires WellFormed(req)
      reads this
    {
      var key := TargetKey(req, stamp);
      match AtomicWrite(Lookup(old(features), key), req, stamp)
      case Err(_) => features == old(features) && changes == old(changes)
      case Ok(f) =>
        var record := RecordFor(req, stamp, f);
        && features == old(features)[key := Stored(f)]
        && changes == old(changes)[ChangeKeyOf(record) := record]
    }

    constructor ()
      ensures Valid() && features == map[] && changes == map[]
    {
      features := map[];
      changes := map[];
    }

    /** A feature is found exactly when it is stored under the id, not deleted, and
        within the visibility levels given, if any are. */
    function GetFeature(collectionId: string, id: string, organization: string, visibilityFilter: set<string>)
      : (r: Result<Feature, Error>)
      reads this
      ensures var key := Key(organization + "#COLLECTION#" + collectionId, "FEATURE#" + id);
        r.Ok? <==>
          && key in features && !features[key].deleted
          && (visibilityFilter == {} || features[key].visibility in visibilityFilter)
      ensures var key := Key(organization + "#COLLECTION#" + collectionId, "FEATURE#" + id);
        r.Ok? ==> r.value == features[key]
      ensures r.Err? ==> r.error == NotFound
    {
      Visible(Lookup(features, MakeKey(organization, collectionId, id)), visibilityFilter)
    }

    /** And for a write, when its ETag is the one named too. */
    function GetFeatureOrRaise(collectionId: string, id: string, organization: string, ifMatch: string)
      : (r: Result<Feature, Error>)
      reads this
      ensures var key := Key(organization + "#COLLECTION#" + collectionId, "FEATURE#" + id);
        && (r.Ok? <==> key in features && !features[key].deleted && features[key].etag == ifMatch)
        && (r.Ok? ==> r.value == features[key])
        && (r == Err(NotFound) <==> key !in features || features[key].deleted)
        && (r.Err? ==> r.error == NotFound || r.error == ETagMismatch)
    {
      match GetFeature(collectionId, id, organization, {})
      case Err(e) => Err(e)
      case Ok(feature) => if feature.etag != ifMatch then Err(ETagMismatch) else Ok(feature)
    }

    /** Put under the condition that the token still matches and the item is not deleted. */
    method ConditionalPut(feature: Feature, expectedEtag: string) returns (ok: bool)
      modifies this`features
      ensures ok <==> (KeyOf(feature) in old(features)
                       && old(features)[KeyOf(feature)].etag == expectedEtag && !old(features)[KeyOf(feature)].deleted)
      ensures features == if ok then old(features)[KeyOf(feature) := Stored(feature)] else old(features)
    {
      var key := KeyOf(feature);
      ok := key in features && features[key].etag == expectedEtag && !features[key].deleted;
      if ok {
        features := features[key := Stored(feature)];
      }
    }

    method WriteChange(feature: Feature, operation: string)
      modifies this`changes
      ensures var record := RecordOf(feature, operation); changes == old(changes)[ChangeKeyOf(record) := record]
    {
      var record := RecordOf(feature, operation);
      changes := changes[ChangeKeyOf(record) := record];
    }

    method CreateFeature(collectionId: string, data: Value, organization: string, stamp: Stamp)
      returns (r: Result<Feature, Error>)
      requires Valid() && IsBody(data)
      modifies this
      ensures Valid()
      ensures var req := Request(organization, collectionId, {}, Create(data));
        r == AtomicWrite(Lookup(old(features), TargetKey(req, stamp)), req, stamp) && Wrote(req, stamp)
    {
      hide Stored, Decoded, ToGeoJson;
      ghost var req := Request(organization, collectionId, {}, Create(data));
      var properties := PropertiesIn(data);
      var visibility := VisibilityIn(properties, DEFAULT_VISIBILITY);
      properties := properties - {"visibility"};
      properties := properties - {"organization"};
      assert properties == WithoutManaged(PropertiesIn(data));
      var feature := Feature(stamp.newId, collectionId, organization, visibility, GeometryIn(data), properties,
                             stamp.etag, stamp.now, stamp.now, false);
      var key := KeyOf(feature);
      if key in features {
        return Err(AlreadyExists);
      }
      ghost var item := Lookup(features, key);
      features := features[key := Stored(feature)];
      WriteChange(feature, "CREATE");
      WriteIsSound(item, req, stamp);
      RecordShowsStored(item, req, stamp);
      r := Ok(feature);
    }

    method ReplaceFeature(collectionId: string, id: string, data: Value, ifMatch: string, organization: string,
                          stamp: Stamp)
      returns (r: Result<Feature, Error>)
      requires Valid() && IsBody(data)
      modifies this
      ensures Valid()
      ensures var req := Request(organization, collectionId, {}, Replace(id, data, ifMatch));
        r == AtomicWrite(Lookup(old(features), TargetKey(req, stamp)), req, stamp) && Wrote(req, stamp)
    {
      hide Stored, Decoded, ToGeoJson;
      ghost var req := Request(organization, collectionId, {}, Replace(id, data, ifMatch));
      ghost var item := Lookup(features, TargetKey(req, stamp));
      var read := GetFeatureOrRaise(collectionId, id, organization, ifMatch);
      if read.Err? {
        return Err(read.error);
      }
      var current := read.value;
      var properties := PropertiesIn(data);
      var visibility := VisibilityIn(properties, current.visibility);
      if !OrganizationKept(properties, organization) {
        return Err(OrganizationImmutable);
      }
      properties := properties - {"visibility"} - {"organization"};
      assert properties == WithoutManaged(PropertiesIn(data));
      var updated := Feature(id, collectionId, organization, visibility, GeometryIn(data), properties,
                             stamp.etag, current.createdAt, stamp.now, false);
      var ok := ConditionalPut(updated, ifMatch);
      if !ok {
        return Err(ETagMismatch);
      }
      WriteChange(updated, "REPLACE");
      WriteIsSound(item, req, stamp);
      RecordShowsStored(item, req, stamp);
      r := Ok(updated);
    }

    method UpdateFeature(collectionId: string, id: string, patch: Value, ifMatch: string, organization: string,
                         stamp: Stamp)
      returns (r: Result<Feature, Error>)
      requires Valid() && IsPatch(patch)
      modifies this
      ensures Valid()
      ensures var req := Request(organization, collectionId, {}, Update(id, patch, ifMatch));
        r == AtomicWrite(Lookup(old(features), TargetKey(req, stamp)), req, stamp) && Wrote(req, stamp)
    {
      hide Stored, Decoded, ToGeoJson;
      ghost var req := Request(organization, collectionId, {}, Update(id, patch, ifMatch));
      ghost var item := Lookup(features, TargetKey(req, stamp));
      var read := GetFeatureOrRaise(collectionId, id, organization, ifMatch);
      if read.Err? {
        return Err(read.error);
      }
      var current := read.value;
      var geometry := current.geometry;
      if "geometry" in patch.entries {
        geometry := patch.entries["geometry"];
      }
      var properties := current.properties;
      if "properties" in patch.entries {
        var merged := MP.JsonMergePatch(Dict(properties), patch.entries["properties"]);
        properties := merged.entries;
      }
      assert properties == MergedProperties(current, patch);
      var visibility := VisibilityIn(properties, current.visibility);
      if !OrganizationKept(properties, organization) {
        return Err(OrganizationImmutable);
      }
      properties := properties - {"visibility"} - {"organization"};
      assert properties == WithoutManaged(MergedProperties(current, patch));
      var updated := Feature(id, collectionId, organization, visibility, geometry, properties,
                             stamp.etag, current.createdAt, stamp.now, false);
      var ok := ConditionalPut(updated, ifMatch);
      if !ok {
        return Err(ETagMismatch);
      }
      WriteChange(updated, "UPDATE");
      WriteIsSound(item, req, stamp);
      RecordShowsStored(item, req, stamp);
      r := Ok(updated);
    }

    /** The response carries no feature; None is success. */
    method DeleteFeature(collectionId: string, id: string, ifMatch: string, organization: string, stamp: Stamp)
      returns (error: Option<Error>)
      requires Valid()
      modifies this
      ensures Valid()
      ensures var req := Request(organization, collectionId, {}, Delete(id, ifMatch));
        && Wrote(req, stamp)
        && match AtomicWrite(Lookup(old(features), TargetKey(req, stamp)), req, stamp)
           case Ok(_) => error == None
           case Err(e) => error == Some(e)
    {
      hide Stored, Decoded, ToGeoJson;
      var req := Request(organization, collectionId, {}, Delete(id, ifMatch));
      ghost var item := Lookup(features, TargetKey(req, stamp));
      var read := GetFeatureOrRaise(collectionId, id, organization, ifMatch);
      if read.Err? {
        return Some(read.error);
      }
      var current := read.value;
      var key := MakeKey(organization, collectionId, id);
      if !(key in features && features[key].etag == ifMatch && !features[key].deleted) {
        return Some(ETagMismatch);
      }
      features := features[key := features[key].(deleted := true, updatedAt := stamp.now)];
      var record := DeleteRecord(current, req, stamp);
      changes := changes[ChangeKeyOf(record) := record];
      WriteIsSound(item, req, stamp);
      RecordShowsStored(item, req, stamp);
      error := None;
    }
  }
}
