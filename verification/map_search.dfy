/** The location picker (Meeat/MapSearchView.swift). The map SDK reports the
    camera's resting point through `onCameraIdle`; that point becomes both the
    local map centre and the parent's selected location, and the Set Time
    button stays disabled until a location has been selected. */
module MapSearch {
  import opened Models

  /** The Set Time button is enabled exactly when a location is selected. */
  function SetTimeEnabled(selected: Option<LocationPin>): (enabled: bool)
    ensures enabled <==> selected != None
  {
    selected.Some?
  }

  /** The button's fill: blue when enabled, grey when disabled. */
  function SetTimeColor(selected: Option<LocationPin>): (c: Color)
    ensures c == Blue <==> SetTimeEnabled(selected)
    ensures c == Gray <==> !SetTimeEnabled(selected)
  {
    if selected != None then Blue else Gray
  }

  class MapSearchView {
    /** The parent's binding. */
    var selectedLocation: Option<LocationPin>
    /** Local state: the last point the camera came to rest on. */
    var mapCenter: Option<Coordinate>

    /** Whenever the camera has come to rest, the selected pin sits exactly on it. */
    ghost predicate Valid()
      reads this
    {
      mapCenter != None ==> selectedLocation != None && selectedLocation.value.coordinate == mapCenter.value
    }

    constructor (selected: Option<LocationPin>)
      ensures Valid()
      ensures selectedLocation == selected && mapCenter == None
    {
      selectedLocation := selected;
      mapCenter := None;
    }

    /** `onCameraIdle`: both the centre and the selected pin move to `coord`;
        `pinId` is the fresh UUID the new `LocationPin` receives. */
    method CameraIdle(coord: Coordinate, pinId: Uuid)
      requires Valid()
      modifies this
      ensures Valid()
      ensures mapCenter == Some(coord)
      ensures selectedLocation == Some(LocationPin(pinId, coord))
      ensures SetTimeEnabled(selectedLocation)
    {
      mapCenter := Some(coord);
      selectedLocation := Some(LocationPin(pinId, coord));
    }

    /** `onMyLocationTapped`: hands the location manager's last fix back to the
        map unchanged; nothing in this view changes. */
    method MyLocationTapped(lastLocation: Option<Coordinate>) returns (target: Option<Coordinate>)
      ensures target == lastLocation
    {
      target := lastLocation;
    }

    /** A tap on Set Time: `onSetTime` fires only when the button is enabled,
        so always once the camera has come to rest somewhere. */
    method TapSetTime() returns (fires: bool)
      requires Valid()
      ensures fires <==> selectedLocation != None
      ensures mapCenter != None ==> fires
    {
      fires := SetTimeEnabled(selectedLocation);
    }
  }
}
