/** The record extractor (`InspectionDataParser`): flat views of the nested
    inspection record in which every absent key is replaced by its default
    (`''`, `0`, `False` or `[]`). Present values pass through untouched,
    whatever their JSON type, exactly as Python's `dict.get` passes them. */
module Extractor {
  import opened JsonValues

  datatype PropertyInfo = PropertyInfo(
    street: Json, city: Json, state: Json, zipcode: Json,
    fullAddress: Json, squareFootage: Json)

  datatype ClientInfo = ClientInfo(name: Json, email: Json, phone: Json, userType: Json)

  datatype InspectorInfo = InspectorInfo(id: Json, name: Json, email: Json, phone: Json)

  datatype Schedule = Schedule(date: Json, startTime: Json, endTime: Json)

  datatype Comment = Comment(
    id: Json, text: Json, kind: Json, location: Json, labelText: Json,
    isSelected: Json, isFlagged: Json, commentNumber: Json,
    photos: Json, videos: Json)

  datatype LineItem = LineItem(
    id: Json, name: Json, title: Json, order: Json,
    inspectionStatus: Json, isDeficient: Json, comments: seq<Comment>)

  datatype Section = Section(
    id: Json, name: Json, order: Json, sectionNumber: Json, lineItems: seq<LineItem>)

  const Zero: Json := JNum(0)
  const False: Json := JBool(false)

  /** The `inspection` object of the record, `{}` when absent. */
  function InspectionPart(data: Json): Json {
    At(data, "inspection", EmptyObject)
  }

  /** `get_property_info`: the address fields, and the square footage from
      the nested `propertyInfo` object (itself defaulting to `{}`). */
  function GetPropertyInfo(data: Json): (r: Outcome<PropertyInfo>)
    ensures var a := At(InspectionPart(data), "address", EmptyObject);
      r.Ok? <==> data.JObj? && InspectionPart(data).JObj? && a.JObj? &&
                 At(a, "propertyInfo", EmptyObject).JObj?
    ensures r.Ok? ==>
      var a := At(InspectionPart(data), "address", EmptyObject);
      r.value == PropertyInfo(
        At(a, "street", EmptyString), At(a, "city", EmptyString),
        At(a, "state", EmptyString), At(a, "zipcode", EmptyString),
        At(a, "fullAddress", EmptyString),
        At(At(a, "propertyInfo", EmptyObject), "squareFootage", EmptyString))
  {
    var inspection :- Get(data, "inspection", EmptyObject);
    var address :- Get(inspection, "address", EmptyObject);
    // `address` is read once per key; only the first read can raise.
    var street :- Get(address, "street", EmptyString);
    var propertyInfo := At(address, "propertyInfo", EmptyObject);
    var squareFootage :- Get(propertyInfo, "squareFootage", EmptyString);
    Ok(PropertyInfo(street, At(address, "city", EmptyString), At(address, "state", EmptyString),
                    At(address, "zipcode", EmptyString), At(address, "fullAddress", EmptyString),
                    squareFootage))
  }

  /** `get_client_info`. */
  function GetClientInfo(data: Json): (r: Outcome<ClientInfo>)
    ensures var c := At(InspectionPart(data), "clientInfo", EmptyObject);
      r.Ok? <==> data.JObj? && InspectionPart(data).JObj? && c.JObj?
    ensures r.Ok? ==>
      var c := At(InspectionPart(data), "clientInfo", EmptyObject);
      r.value == ClientInfo(At(c, "name", EmptyString), At(c, "email", EmptyString),
                            At(c, "phone", EmptyString), At(c, "userType", EmptyString))
  {
    var inspection :- Get(data, "inspection", EmptyObject);
    var client :- Get(inspection, "clientInfo", EmptyObject);
    var name :- Get(client, "name", EmptyString);
    Ok(ClientInfo(name, At(client, "email", EmptyString), At(client, "phone", EmptyString),
                  At(client, "userType", EmptyString)))
  }

  /** `get_inspector_info`. */
  function GetInspectorInfo(data: Json): (r: Outcome<InspectorInfo>)
    ensures var i := At(InspectionPart(data), "inspector", EmptyObject);
      r.Ok? <==> data.JObj? && InspectionPart(data).JObj? && i.JObj?
    ensures r.Ok? ==>
      var i := At(InspectionPart(data), "inspector", EmptyObject);
      r.value == InspectorInfo(At(i, "id", EmptyString), At(i, "name", EmptyString),
                               At(i, "email", EmptyString), At(i, "phone", EmptyString))
  {
    var inspection :- Get(data, "inspection", EmptyObject);
    var inspector :- Get(inspection, "inspector", EmptyObject);
    var id :- Get(inspector, "id", EmptyString);
    Ok(InspectorInfo(id, At(inspector, "name", EmptyString), At(inspector, "email", EmptyString),
                     At(inspector, "phone", EmptyString)))
  }

  /** `get_inspection_schedule`. */
  function GetInspectionSchedule(data: Json): (r: Outcome<Schedule>)
    ensures var s := At(InspectionPart(data), "schedule", EmptyObject);
      r.Ok? <==> data.JObj? && InspectionPart(data).JObj? && s.JObj?
    ensures r.Ok? ==>
      var s := At(InspectionPart(data), "schedule", EmptyObject);
      r.value == Schedule(At(s, "date", EmptyString), At(s, "startTime", EmptyString),
                          At(s, "endTime", EmptyString))
  {
    var inspection :- Get(data, "inspection", EmptyObject);
    var schedule :- Get(inspection, "schedule", EmptyObject);
    var date :- Get(schedule, "date", EmptyString);
    Ok(Schedule(date, At(schedule, "startTime", EmptyString), At(schedule, "endTime", EmptyString)))
  }

  /** A record with no data at all yields every documented default. */
  lemma EmptyRecordDefaults()
    ensures GetPropertyInfo(EmptyObject) ==
      Ok(PropertyInfo(EmptyString, EmptyString, EmptyString, EmptyString, EmptyString, EmptyString))
    ensures GetClientInfo(EmptyObject) == Ok(ClientInfo(EmptyString, EmptyString, EmptyString, EmptyString))
    ensures GetInspectorInfo(EmptyObject) == Ok(InspectorInfo(EmptyString, EmptyString, EmptyString, EmptyString))
    ensures GetInspectionSchedule(EmptyObject) == Ok(Schedule(EmptyString, EmptyString, EmptyString))
    ensures SectionsOf(EmptyObject) == Ok([])
  {
  }

  /** One comment entry: ten fields, each defaulted. */
  function ParseComment(v: Json): (r: Outcome<Comment>)
    ensures r.Ok? <==> v.JObj?
    ensures r.Ok? ==> r.value == Comment(
      At(v, "id", EmptyString), At(v, "text", EmptyString), At(v, "type", EmptyString),
      At(v, "location", EmptyString), At(v, "label", EmptyString),
      At(v, "isSelected", False), At(v, "isFlagged", False),
      At(v, "commentNumber", EmptyString), At(v, "photos", EmptyList), At(v, "videos", EmptyList))
  {
    var id :- Get(v, "id", EmptyString);
    Ok(Comment(id, At(v, "text", EmptyString), At(v, "type", EmptyString),
               At(v, "location", EmptyString), At(v, "label", EmptyString),
               At(v, "isSelected", False), At(v, "isFlagged", False),
               At(v, "commentNumber", EmptyString), At(v, "photos", EmptyList),
               At(v, "videos", EmptyList)))
  }

  /** One line item: six defaulted fields and its comments, every one kept,
      in their order. */
  function ParseLineItem(v: Json): (r: Outcome<LineItem>)
    ensures r.Ok? <==>
      v.JObj? && Iterate(At(v, "comments", EmptyList)).Ok? &&
      forall k :: 0 <= k < |Iterate(At(v, "comments", EmptyList)).value| ==>
        Iterate(At(v, "comments", EmptyList)).value[k].JObj?
    ensures r.Ok? ==>
      var raw := Iterate(At(v, "comments", EmptyList)).value;
      && r.value.id == At(v, "id", EmptyString)
      && r.value.name == At(v, "name", EmptyString)
      && r.value.title == At(v, "title", EmptyString)
      && r.value.order == At(v, "order", Zero)
      && r.value.inspectionStatus == At(v, "inspectionStatus", EmptyString)
      && r.value.isDeficient == At(v, "isDeficient", False)
      && |r.value.comments| == |raw|
      && forall k :: 0 <= k < |raw| ==> Ok(r.value.comments[k]) == ParseComment(raw[k])
  {
    if !v.JObj? then Raised
    else
      var raw :- Iterate(At(v, "comments", EmptyList));
      MapAllOk(raw, ParseComment);
      var comments :- MapAll(raw, ParseComment);
      Ok(LineItem(At(v, "id", EmptyString), At(v, "name", EmptyString), At(v, "title", EmptyString),
                  At(v, "order", Zero), At(v, "inspectionStatus", EmptyString),
                  At(v, "isDeficient", False), comments))
  }

  /** One section: four defaulted fields and its line items, every one kept,
      in their order. */
  function ParseSection(v: Json): (r: Outcome<Section>)
    ensures r.Ok? <==>
      v.JObj? && Iterate(At(v, "lineItems", EmptyList)).Ok? &&
      forall j :: 0 <= j < |Iterate(At(v, "lineItems", EmptyList)).value| ==>
        ParseLineItem(Iterate(At(v, "lineItems", EmptyList)).value[j]).Ok?
    ensures r.Ok? ==>
      var raw := Iterate(At(v, "lineItems", EmptyList)).value;
      && r.value.id == At(v, "id", EmptyString)
      && r.value.name == At(v, "name", EmptyString)
      && r.value.order == At(v, "order", Zero)
      && r.value.sectionNumber == At(v, "sectionNumber", EmptyString)
      && |r.value.lineItems| == |raw|
      && forall j :: 0 <= j < |raw| ==> Ok(r.value.lineItems[j]) == ParseLineItem(raw[j])
  {
    if !v.JObj? then Raised
    else
      var raw :- Iterate(At(v, "lineItems", EmptyList));
      MapAllOk(raw, ParseLineItem);
      var items :- MapAll(raw, ParseLineItem);
      Ok(Section(At(v, "id", EmptyString), At(v, "name", EmptyString), At(v, "order", Zero),
                 At(v, "sectionNumber", EmptyString), items))
  }

  /** The raw `sections` value of the record, `[]` when absent. */
  function RawSections(data: Json): Json {
    At(InspectionPart(data), "sections", EmptyList)
  }

  /** What `get_sections` returns: every section, in order. */
  function SectionsOf(data: Json): (r: Outcome<seq<Section>>)
    ensures r.Ok? <==>
      data.JObj? && InspectionPart(data).JObj? && Iterate(RawSections(data)).Ok? &&
      forall i :: 0 <= i < |Iterate(RawSections(data)).value| ==>
        ParseSection(Iterate(RawSections(data)).value[i]).Ok?
    ensures r.Ok? ==>
      var raw := Iterate(RawSections(data)).value;
      |r.value| == |raw| && forall i :: 0 <= i < |raw| ==> Ok(r.value[i]) == ParseSection(raw[i])
  {
    var inspection :- Get(data, "inspection", EmptyObject);
    var sections :- Get(inspection, "sections", EmptyList);
    var raw :- Iterate(sections);
    MapAllOk(raw, ParseSection);
    MapAll(raw, ParseSection)
  }

  /** `get_sections`: three nested loops appending each parsed comment, line
      item and section in turn. Raises, as the Python does, on the first
      entry that is not a dict or a list of entries that cannot be iterated. */
  method GetSections(data: Json) returns (r: Outcome<seq<Section>>)
    ensures r == SectionsOf(data)
  {
    var inspection :- Get(data, "inspection", EmptyObject);
    var sectionsValue :- Get(inspection, "sections", EmptyList);
    var rawSections :- Iterate(sectionsValue);
    var parsedSections: seq<Section> := [];
    var i := 0;
    while i < |rawSections|
      invariant 0 <= i <= |rawSections|
      invariant MapAll(rawSections[..i], ParseSection) == Ok(parsedSections)
    {
      var section := rawSections[i];
      var rawItems := Iterate(At(section, "lineItems", EmptyList));
      if !section.JObj? || rawItems.Raised? {
        RaisedAt(rawSections, i, ParseSection);
        return Raised;
      }
      var lineItems: seq<LineItem> := [];
      var j := 0;
      while j < |rawItems.value|
        invariant 0 <= j <= |rawItems.value|
        invariant MapAll(rawItems.value[..j], ParseLineItem) == Ok(lineItems)
      {
        var lineItem := rawItems.value[j];
        var rawComments := Iterate(At(lineItem, "comments", EmptyList));
        if !lineItem.JObj? || rawComments.Raised? {
          RaisedAt(rawItems.value, j, ParseLineItem);
          RaisedAt(rawSections, i, ParseSection);
          return Raised;
        }
        var comments: seq<Comment> := [];
        var k := 0;
        while k < |rawComments.value|
          invariant 0 <= k <= |rawComments.value|
          invariant MapAll(rawComments.value[..k], ParseComment) == Ok(comments)
        {
          var comment := ParseComment(rawComments.value[k]);
          if comment.Raised? {
            RaisedAt(rawComments.value, k, ParseComment);
            RaisedAt(rawItems.value, j, ParseLineItem);
            RaisedAt(rawSections, i, ParseSection);
            return Raised;
          }
          OkAt(rawComments.value, k, ParseComment);
          comments := comments + [comment.value];
          k := k + 1;
        }
        assert rawComments.value[..k] == rawComments.value;
        var item := LineItem(
          At(lineItem, "id", EmptyString), At(lineItem, "name", EmptyString),
          At(lineItem, "title", EmptyString), At(lineItem, "order", Zero),
          At(lineItem, "inspectionStatus", EmptyString), At(lineItem, "isDeficient", False),
          comments);
        OkAt(rawItems.value, j, ParseLineItem);
        lineItems := lineItems + [item];
        j := j + 1;
      }
      assert rawItems.value[..j] == rawItems.value;
      var parsed := Section(
        At(section, "id", EmptyString), At(section, "name", EmptyString),
        At(section, "order", Zero), At(section, "sectionNumber", EmptyString), lineItems);
      OkAt(rawSections, i, ParseSection);
      parsedSections := parsedSections + [parsed];
      i := i + 1;
    }
    assert rawSections[..i] == rawSections;
    return Ok(parsedSections);
  }
}
