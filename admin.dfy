/** The admin panel's list editing (src/App.jsx): the image upload cap, deleting an
    image by position, and opening a car for editing. */
module Admin {
  import opened Base
  import opened Catalog

  /** At most this many images per car (src/App.jsx:81). */
  const MaxImages := 5

  /** The edit form (`editingData`). */
  datatype Draft = Draft(brand: string, model: string, year: int, images: seq<string>, scheduledDate: string)

  /** `prev.Imagenes.filter((_, i) => i !== index)`: every image except the one at `index`. */
  function RemoveAt(s: seq<string>, index: int): (r: seq<string>)
    ensures 0 <= index < |s| ==> r == s[..index] + s[index + 1..]
    ensures !(0 <= index < |s|) ==> r == s
    decreases |s|
  {
    if s == [] then []
    else
      var rest := RemoveAt(s[1..], index - 1);
      assert 0 < index < |s| ==> rest == s[1..][..index - 1] + s[1..][index..];
      (if index == 0 then [] else [s[0]]) + rest
  }

  class AdminPanel {
    /** `imagenes`: the images of the car being added. */
    var images: seq<string>
    /** `editingId`. */
    var editingId: Option<string>
    /** `editingData`. */
    var editing: Draft

    /** Both image lists respect the cap. */
    ghost predicate Valid()
      reads this
    {
      |images| <= MaxImages && |editing.images| <= MaxImages
    }

    constructor ()
      ensures Valid()
      ensures images == [] && editingId == None && editing == Draft("", "", 0, [], "")
    {
      images := [];
      editingId := None;
      editing := Draft("", "", 0, [], "");
    }

    /** `handleImageUpload`: reject the whole batch when the list would exceed five
        images, otherwise append the new images after the existing ones, in order. */
    method UploadImages(files: seq<string>, isEditing: bool) returns (accepted: bool)
      modifies this
      ensures accepted <==> (if isEditing then |old(editing.images)| else |old(images)|) + |files| <= MaxImages
      ensures editingId == old(editingId)
      ensures isEditing ==> images == old(images)
      ensures isEditing ==> editing == if accepted then old(editing).(images := old(editing.images) + files) else old(editing)
      ensures !isEditing ==> editing == old(editing)
      ensures !isEditing ==> images == if accepted then old(images) + files else old(images)
      ensures old(Valid()) ==> Valid()
    {
      var current := if isEditing then |editing.images| else |images|;
      if current + |files| > MaxImages {
        accepted := false;
        return;
      }
      accepted := true;
      if isEditing {
        editing := editing.(images := editing.images + files);
      } else {
        images := images + files;
      }
    }

    /** `handleDeleteImage`: remove exactly the image at `index` from the edit form;
        an index outside the list changes nothing. */
    method DeleteImage(index: int)
      modifies this
      ensures images == old(images) && editingId == old(editingId)
      ensures editing == old(editing).(images := RemoveAt(old(editing.images), index))
      ensures 0 <= index < |old(editing.images)| ==> |editing.images| == |old(editing.images)| - 1
      ensures old(Valid()) ==> Valid()
    {
      editing := editing.(images := RemoveAt(editing.images, index));
    }

    /** `handleEdit`: copy the car into the edit form; missing images become `[]` and a
        missing scheduled date becomes `""`. */
    method Edit(id: string, car: Vehicle)
      modifies this
      ensures images == old(images)
      ensures editingId == Some(id)
      ensures editing.brand == car.brand && editing.model == car.model && editing.year == car.year
      ensures editing.images == (if car.images.Some? then car.images.value else [])
      ensures editing.scheduledDate == (if car.scheduledDate.Some? then car.scheduledDate.value else "")
    {
      editingId := Some(id);
      editing := Draft(car.brand, car.model, car.year,
                       if car.images.Some? then car.images.value else [],
                       if car.scheduledDate.Some? then car.scheduledDate.value else "");
    }
  }
}
