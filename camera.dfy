/**
 * CameraHelper: which device camera is in use, which way it faces and how its
 * sensor is rotated, and the orientation matrix and preview aspect ratio it
 * publishes into the shared data.
 *
 * The device cameras are a fixed table indexed by camera id. An open camera
 * is recorded only as open or closed, with the preview size it reports and
 * whether its preview is running.
 */
module Camera {
  import opened Gles
  import opened SharedState

  datatype Facing = Back | Front

  /** Camera.CameraInfo: facing and sensor orientation in degrees. */
  datatype CameraInfo = CameraInfo(facing: Facing, orientation: int)

  datatype Size = Size(width: int, height: int)

  /** One camera of the device: its info and the preview size its parameters report. */
  datatype Device = Device(info: CameraInfo, previewSize: Size)

  predicate PositiveSize(s: Size) {
    s.width > 0 && s.height > 0
  }

  /** The C# `/` on int: truncates toward zero. */
  function CsQuotient(a: int, n: int): int
    requires n > 0
  {
    if a >= 0 then a / n else -((-a) / n)
  }

  /**
   * The C# `%` on int: the remainder of truncating division, so it takes the
   * sign of the dividend (unlike Dafny's `%`, which is never negative).
   */
  function CsRemainder(a: int, n: int): (r: int)
    requires n > 0
    ensures a == CsQuotient(a, n) * n + r
    ensures -n < r < n
    ensures a >= 0 ==> r >= 0
    ensures a <= 0 ==> r <= 0
  {
    if a >= 0 then a % n else -((-a) % n)
  }

  /**
   * The picture rotation for a camera with `info` on a device turned by
   * `deviceOrientation` degrees: the front camera subtracts the device
   * rotation, every other camera adds it.
   */
  function Orientation(info: CameraInfo, deviceOrientation: int): int {
    if info.facing == Front then CsRemainder(info.orientation - deviceOrientation + 360, 360)
    else CsRemainder(info.orientation + deviceOrientation, 360)
  }

  /**
   * For sensor and device orientations in [0, 360) the result is in [0, 360),
   * and is the sensor orientation minus (front) or plus (back) the device
   * orientation, modulo 360.
   */
  lemma OrientationRange(info: CameraInfo, deviceOrientation: int)
    requires 0 <= info.orientation < 360 && 0 <= deviceOrientation < 360
    ensures 0 <= Orientation(info, deviceOrientation) < 360
    ensures info.facing == Front ==> Orientation(info, deviceOrientation) == (info.orientation - deviceOrientation) % 360
    ensures info.facing == Back ==> Orientation(info, deviceOrientation) == (info.orientation + deviceOrientation) % 360
  {
    var o, d := info.orientation, deviceOrientation;
    if info.facing == Front {
      assert (o - d + 360) % 360 == (o - d) % 360 by {
        assert o - d + 360 == (o - d) + 1 * 360;
      }
    }
  }

  lemma OrientationExamples()
    ensures Orientation(CameraInfo(Back, 90), 0) == 90
    ensures Orientation(CameraInfo(Back, 90), 90) == 180
    ensures Orientation(CameraInfo(Front, 270), 90) == 180
    ensures Orientation(CameraInfo(Front, 90), 180) == 270
  {
  }

  /** The preview size as the picture is shown: transposed when the orientation is a multiple of 90. */
  function Oriented(size: Size, orientation: int): Size {
    if CsRemainder(orientation, 90) == 0 then Size(size.height, size.width) else size
  }

  /** Every legal sensor orientation transposes the preview size, 0 and 180 included. */
  lemma {:induction false} LegalOrientationsTranspose(size: Size, orientation: int)
    requires orientation in {0, 90, 180, 270}
    ensures Oriented(size, orientation) == Size(size.height, size.width)
  {
    assert CsRemainder(orientation, 90) == 0 by {
      assert orientation == (orientation / 90) * 90;
    }
  }

  /** A size is transposed exactly when the orientation is a multiple of 90 (or it is square). */
  lemma {:induction false} OrientedTransposesWhen(size: Size, orientation: int)
    requires size.width != size.height
    ensures Oriented(size, orientation) == Size(size.height, size.width) <==> orientation % 90 == 0
  {
    var q, r := CsQuotient(orientation, 90), CsRemainder(orientation, 90);
    assert orientation == q * 90 + r;
    if orientation % 90 == 0 {
      var k := orientation / 90;
      assert orientation == k * 90;
      assert r == (k - q) * 90;
    }
  }

  /** The preview aspect ratio published for a camera with this orientation and preview size. */
  function PreviewAspect(orientation: int, size: Size): (r: (real, real))
    requires PositiveSize(size)
    ensures 0.0 < r.0 <= 1.0 && 0.0 < r.1 <= 1.0 && (r.0 == 1.0 || r.1 == 1.0)
  {
    var s := Oriented(size, orientation);
    AspectRatio(s.width, s.height)
  }

  lemma {:induction false} PreviewAspectExamples()
    ensures PreviewAspect(90, Size(640, 480)) == (1.0, 0.75)
    ensures PreviewAspect(90, Size(1280, 720)) == (1.0, 0.5625)
    ensures PreviewAspect(0, Size(1280, 720)) == (1.0, 0.5625)
  {
    LegalOrientationsTranspose(Size(640, 480), 90);
    LegalOrientationsTranspose(Size(1280, 720), 90);
    LegalOrientationsTranspose(Size(1280, 720), 0);
  }

  /** The smallest index of a camera facing `facing`, or -1 when there is none. */
  function FirstMatch(devices: seq<Device>, facing: Facing): (index: int)
    ensures -1 <= index < |devices|
    ensures index >= 0 ==> devices[index].info.facing == facing
    ensures forall j :: 0 <= j < |devices| && (index == -1 || j < index) ==> devices[j].info.facing != facing
    decreases |devices|
  {
    if devices == [] then -1
    else if devices[0].info.facing == facing then 0
    else
      var rest := FirstMatch(devices[1..], facing);
      if rest == -1 then -1 else rest + 1
  }

  class CameraHelper {
    const devices: seq<Device>
    var cameraOpen: bool
    var previewing: bool
    var previewSize: Size
    var cameraId: int
    var cameraInfo: CameraInfo
    var sharedData: DataContainer?
    var surfaceTexture: SurfaceTexture?
    const cameraEnabled: bool := true

    ghost predicate Valid()
      reads this, sharedData
    {
      && (forall i :: 0 <= i < |devices| ==> PositiveSize(devices[i].previewSize))
      && (cameraOpen ==> PositiveSize(previewSize))
      && (previewing ==> cameraOpen)
      && (sharedData != null ==> sharedData.Valid())
    }

    /** What `UpdateRotation` may write: the shared data and its preview aspect array. */
    ghost function Shared(): set<object>
      reads this
    {
      if sharedData == null then {} else {sharedData, sharedData.aspectRatioPreview}
    }

    constructor (devices: seq<Device>)
      requires forall i :: 0 <= i < |devices| ==> PositiveSize(devices[i].previewSize)
      ensures Valid()
      ensures this.devices == devices
      ensures !cameraOpen && !previewing && cameraId == 0 && cameraInfo == CameraInfo(Back, 0)
      ensures sharedData == null && surfaceTexture == null
    {
      this.devices := devices;
      cameraOpen, previewing := false, false;
      previewSize := Size(0, 0);
      cameraId := 0;
      cameraInfo := CameraInfo(Back, 0);
      sharedData := null;
      surfaceTexture := null;
    }

    /** The picture rotation; 0 while there is no shared data. */
    function GetOrientation(): (r: int)
      reads this, sharedData
      ensures sharedData == null ==> r == 0
      ensures sharedData != null ==> r == Orientation(cameraInfo, sharedData.orientationDevice)
      ensures sharedData != null && 0 <= cameraInfo.orientation < 360 && 0 <= sharedData.orientationDevice < 360
              ==> 0 <= r < 360
    {
      if sharedData == null then 0
      else
        var d := sharedData.orientationDevice;
        if 0 <= cameraInfo.orientation < 360 && 0 <= d < 360 then
          OrientationRange(cameraInfo, d);
          Orientation(cameraInfo, d)
        else Orientation(cameraInfo, d)
    }

    predicate IsCameraFront()
      reads this
    {
      cameraInfo.facing == Front
    }

    /** Stops the preview and releases the camera, if one is open. */
    method ResetCamera()
      requires Valid()
      modifies this`cameraOpen, this`previewing
      ensures Valid()
      ensures !cameraOpen && !previewing
    {
      if cameraEnabled {
        if cameraOpen {
          previewing := false;
          cameraOpen := false;
        }
      }
    }

    /** Forgets the surface texture and releases the camera. */
    method OnPause()
      requires Valid()
      modifies this`surfaceTexture, this`cameraOpen, this`previewing
      ensures Valid()
      ensures surfaceTexture == null && !cameraOpen && !previewing
    {
      surfaceTexture := null;
      ResetCamera();
    }

    /**
     * Publishes the sensor rotation and the preview aspect ratio of the open
     * camera; does nothing when no camera is open or there is no shared data.
     */
    method UpdateRotation()
      requires Valid()
      modifies Shared()
      ensures Valid()
      ensures cameraOpen && sharedData != null ==>
        && sharedData.orientationM == RotationZ(cameraInfo.orientation)
        && sharedData.aspectRatioPreview[..] == [PreviewAspect(cameraInfo.orientation, previewSize).0,
                                                 PreviewAspect(cameraInfo.orientation, previewSize).1]
      ensures !cameraOpen && sharedData != null ==>
        && sharedData.orientationM == old(sharedData.orientationM)
        && sharedData.aspectRatioPreview[..] == old(sharedData.aspectRatioPreview[..])
      ensures sharedData != null ==>
        && sharedData.brightness == old(sharedData.brightness) && sharedData.contrast == old(sharedData.contrast)
        && sharedData.saturation == old(sharedData.saturation) && sharedData.cornerRadius == old(sharedData.cornerRadius)
        && sharedData.orientationDevice == old(sharedData.orientationDevice)
    {
      if !cameraOpen || sharedData == null {
        return;
      }
      var orientation := cameraInfo.orientation;
      sharedData.orientationM := RotationZ(orientation);
      var width, height := previewSize.width, previewSize.height;
      if CsRemainder(orientation, 90) == 0 {
        width, height := height, width;
      }
      var m := Min(width, height);
      sharedData.aspectRatioPreview[0] := m as real / width as real;
      sharedData.aspectRatioPreview[1] := m as real / height as real;
    }

    /**
     * Releases any open camera, then, for a camera id of 0 or more, reads its
     * info, opens it and starts its preview on the surface texture if there is
     * one; finally publishes the rotation.
     */
    method OpenCamera()
      requires Valid() && cameraId < |devices|
      modifies this`cameraOpen, this`previewing, this`previewSize, this`cameraInfo, Shared()
      ensures Valid()
      ensures cameraId >= 0 ==>
        && cameraOpen && cameraInfo == devices[cameraId].info && previewSize == devices[cameraId].previewSize
        && previewing == (surfaceTexture != null)
      ensures cameraId < 0 ==> !cameraOpen && !previewing && cameraInfo == old(cameraInfo)
      ensures cameraOpen && sharedData != null ==>
        && sharedData.orientationM == RotationZ(cameraInfo.orientation)
        && sharedData.aspectRatioPreview[..] == [PreviewAspect(cameraInfo.orientation, previewSize).0,
                                                 PreviewAspect(cameraInfo.orientation, previewSize).1]
      ensures !cameraOpen && sharedData != null ==>
        && sharedData.orientationM == old(sharedData.orientationM)
        && sharedData.aspectRatioPreview[..] == old(sharedData.aspectRatioPreview[..])
    {
      if cameraOpen {
        previewing := false;
        cameraOpen := false;
      }
      if cameraId >= 0 {
        cameraInfo := devices[cameraId].info;
        cameraOpen := true;
        previewSize := devices[cameraId].previewSize;
        if surfaceTexture != null {
          previewing := true;
        }
      }
      UpdateRotation();
    }

    /**
     * Selects the first camera facing the requested way (camera id -1 when
     * there is none) and opens it. The search reads each inspected camera's
     * info into `cameraInfo`, so a failed search leaves the last camera's info.
     */
    method SetCameraFront(frontFacing: bool)
      requires Valid()
      modifies this`cameraId, this`cameraOpen, this`previewing, this`previewSize, this`cameraInfo, Shared()
      ensures Valid()
      ensures cameraId == FirstMatch(devices, if frontFacing then Front else Back)
      ensures cameraId >= 0 ==> cameraOpen && cameraInfo == devices[cameraId].info && IsCameraFront() == frontFacing
      ensures cameraId == -1 ==> !cameraOpen && !previewing
      ensures cameraId == -1 && |devices| > 0 ==> cameraInfo == devices[|devices| - 1].info
      ensures cameraId == -1 && |devices| == 0 ==> cameraInfo == old(cameraInfo)
      ensures cameraOpen && sharedData != null ==>
        && sharedData.orientationM == RotationZ(cameraInfo.orientation)
        && sharedData.aspectRatioPreview[..] == [PreviewAspect(cameraInfo.orientation, previewSize).0,
                                                 PreviewAspect(cameraInfo.orientation, previewSize).1]
    {
      var facing := if frontFacing then Front else Back;
      cameraId := -1;
      var i := 0;
      while i < |devices|
        invariant 0 <= i <= |devices| && Valid()
        invariant cameraId == -1
        invariant forall j :: 0 <= j < i ==> devices[j].info.facing != facing
        invariant i == 0 ==> cameraInfo == old(cameraInfo)
        invariant i > 0 ==> cameraInfo == devices[i - 1].info
      {
        cameraInfo := devices[i].info;
        if cameraInfo.facing == facing {
          cameraId := i;
          break;
        }
        i := i + 1;
      }
      OpenCamera();
    }

    method SetSharedData(sharedData: DataContainer?)
      requires Valid()
      requires sharedData != null ==> sharedData.Valid()
      modifies this`sharedData
      ensures Valid()
      ensures this.sharedData == sharedData
    {
      this.sharedData := sharedData;
    }
  }
}
