/**
 * The settings store (Settings/SettingsManager.cs): five settings behind property
 * setters that store a new value and raise a change event only when the value
 * actually changes, the resolution-to-pixels switch, save and load through the
 * `PlayerPrefs` key-value store, and the singleton registration in `Awake`.
 *
 * The three C# enums are modelled as newtypes over the 32-bit integers they are stored
 * as, because the source casts arbitrary integers to them (`LoadSettings`, the quality
 * dropdown) and so they can hold values without a name.
 */
module Settings {
  import opened Wrappers
  import opened Bytes

  newtype ImageQuality = n: int | -0x8000_0000 <= n <= 0x7fff_ffff
  newtype ImageResolution = n: int | -0x8000_0000 <= n <= 0x7fff_ffff
  newtype CameraEye = n: int | -0x8000_0000 <= n <= 0x7fff_ffff

  /** The named qualities are their JPEG quality numbers. */
  const Quality100: ImageQuality := 100
  const Quality75: ImageQuality := 75
  const Quality50: ImageQuality := 50
  const Quality25: ImageQuality := 25

  const Resolution1280x960: ImageResolution := 0
  const Resolution800x600: ImageResolution := 1
  const Resolution640x480: ImageResolution := 2
  const Resolution320x240: ImageResolution := 3

  const Left: CameraEye := 0
  const Right: CameraEye := 1

  predicate IsNamedQuality(q: ImageQuality) {
    q == Quality100 || q == Quality75 || q == Quality50 || q == Quality25
  }

  predicate IsNamedResolution(r: ImageResolution) {
    Resolution1280x960 <= r <= Resolution320x240
  }

  datatype Vector2Int = Vector2Int(x: int, y: int)

  /** The pixel size the camera is asked for; a value without a name falls back to 800 by 600. */
  function GetImageResolution(r: ImageResolution): (size: Vector2Int)
    ensures size.x * 3 == size.y * 4 && 320 <= size.x <= 1280
    ensures !IsNamedResolution(r) ==> size == Vector2Int(800, 600)
  {
    if r == Resolution1280x960 then Vector2Int(1280, 960)
    else if r == Resolution800x600 then Vector2Int(800, 600)
    else if r == Resolution640x480 then Vector2Int(640, 480)
    else if r == Resolution320x240 then Vector2Int(320, 240)
    else Vector2Int(800, 600)
  }

  /**
   * Every size is 4:3 and the named resolutions give four different sizes, each strictly
   * smaller than the one before; anything else is treated as the 800 by 600 setting.
   */
  lemma ResolutionSizes(r: ImageResolution, r': ImageResolution)
    ensures var size := GetImageResolution(r); size.x * 3 == size.y * 4 && size.x > 0
    ensures IsNamedResolution(r) && IsNamedResolution(r') && r < r' ==>
              GetImageResolution(r').x < GetImageResolution(r).x
    ensures !IsNamedResolution(r) ==> GetImageResolution(r) == GetImageResolution(Resolution800x600)
  {
  }

  datatype SettingsEvent = NetworkSettingsChanged | GraphicsSettingsChanged | CameraSettingsChanged

  datatype Values = Values(
    serverIP: string,
    serverPort: int32,
    imageQuality: ImageQuality,
    imageResolution: ImageResolution,
    cameraEye: CameraEye)

  /** The field initialisers: the settings of a fresh manager before anything is loaded. */
  function FieldDefaults(): (v: Values)
    ensures v.serverIP == "172.20.10.3" && v.serverPort == 8080
    ensures v.imageQuality == Quality75 && v.imageResolution == Resolution800x600 && v.cameraEye == Left
  {
    Values("172.20.10.3", 8080, Quality75, Resolution800x600, Left)
  }

  /** What a property assignment leaves: the settings and the events it raised, in order. */
  datatype Assigned = Assigned(values: Values, raised: seq<SettingsEvent>)

  function AssignServerIP(s: Values, value: string): (r: Assigned)
    ensures r.values == s.(serverIP := value)
    ensures r.raised == [] <==> value == s.serverIP
    ensures r.raised != [] ==> r.raised == [NetworkSettingsChanged]
  {
    if s.serverIP != value then Assigned(s.(serverIP := value), [NetworkSettingsChanged]) else Assigned(s, [])
  }

  function AssignServerPort(s: Values, value: int32): (r: Assigned)
    ensures r.values == s.(serverPort := value)
    ensures r.raised == [] <==> value == s.serverPort
    ensures r.raised != [] ==> r.raised == [NetworkSettingsChanged]
  {
    if s.serverPort != value then Assigned(s.(serverPort := value), [NetworkSettingsChanged]) else Assigned(s, [])
  }

  function AssignImageQuality(s: Values, value: ImageQuality): (r: Assigned)
    ensures r.values == s.(imageQuality := value)
    ensures r.raised == [] <==> value == s.imageQuality
    ensures r.raised != [] ==> r.raised == [GraphicsSettingsChanged]
  {
    if s.imageQuality != value then Assigned(s.(imageQuality := value), [GraphicsSettingsChanged]) else Assigned(s, [])
  }

  /** A new resolution changes both what is encoded and what the camera captures. */
  function AssignImageResolution(s: Values, value: ImageResolution): (r: Assigned)
    ensures r.values == s.(imageResolution := value)
    ensures r.raised == [] <==> value == s.imageResolution
    ensures r.raised != [] ==> r.raised == [GraphicsSettingsChanged, CameraSettingsChanged]
  {
    if s.imageResolution != value then
      Assigned(s.(imageResolution := value), [GraphicsSettingsChanged, CameraSettingsChanged])
    else Assigned(s, [])
  }

  function AssignCameraEye(s: Values, value: CameraEye): (r: Assigned)
    ensures r.values == s.(cameraEye := value)
    ensures r.raised == [] <==> value == s.cameraEye
    ensures r.raised != [] ==> r.raised == [CameraSettingsChanged]
  {
    if s.cameraEye != value then Assigned(s.(cameraEye := value), [CameraSettingsChanged]) else Assigned(s, [])
  }

  /** Assigning the value a setting already holds is a no-op, so every setter is idempotent. */
  lemma AssignTwiceRaisesOnce(s: Values, ip: string, port: int32, q: ImageQuality, r: ImageResolution, e: CameraEye)
    ensures var a := AssignServerIP(s, ip).values; AssignServerIP(a, ip) == Assigned(a, [])
    ensures var a := AssignServerPort(s, port).values; AssignServerPort(a, port) == Assigned(a, [])
    ensures var a := AssignImageQuality(s, q).values; AssignImageQuality(a, q) == Assigned(a, [])
    ensures var a := AssignImageResolution(s, r).values; AssignImageResolution(a, r) == Assigned(a, [])
    ensures var a := AssignCameraEye(s, e).values; AssignCameraEye(a, e) == Assigned(a, [])
  {
  }

  /** A `PlayerPrefs` entry: a string or a 32-bit integer under a key. */
  datatype Pref = PrefString(s: string) | PrefInt(i: int32)

  type Store = map<string, Pref>

  const ServerIPKey := "ServerIP"
  const ServerPortKey := "ServerPort"
  const ImageQualityKey := "ImageQuality"
  const ImageResolutionKey := "ImageResolution"
  const CameraEyeKey := "CameraEye"

  /** The string under `key`, or `default` when the key is missing or holds an integer. */
  function GetString(store: Store, key: string, default: string): (v: string)
    ensures (key in store && store[key].PrefString?) || v == default
  {
    if key in store && store[key].PrefString? then store[key].s else default
  }

  /** The integer under `key`, or `default` when the key is missing or holds a string. */
  function GetInt(store: Store, key: string, default: int32): (v: int32)
    ensures (key in store && store[key].PrefInt?) || v == default
  {
    if key in store && store[key].PrefInt? then store[key].i else default
  }

  /** The five values `LoadSettings` reads, with the defaults it gives for missing keys. */
  function StoredValues(store: Store): (v: Values)
    ensures store == map[] ==> v == Values("192.168.1.1", 8080, Quality75, Resolution800x600, Left)
  {
    Values(
      GetString(store, ServerIPKey, "192.168.1.1"),
      GetInt(store, ServerPortKey, 8080),
      GetInt(store, ImageQualityKey, Quality75 as int32) as ImageQuality,
      GetInt(store, ImageResolutionKey, Resolution800x600 as int32) as ImageResolution,
      GetInt(store, CameraEyeKey, Left as int32) as CameraEye)
  }

  /**
   * `LoadSettings`: the five setters in source order. Whatever the settings were, they end
   * up as the stored ones, and events are raised exactly when something changed.
   */
  function Load(s: Values, store: Store): (r: Assigned)
    ensures r.values == StoredValues(store)
    ensures r.raised == [] <==> s == StoredValues(store)
  {
    var v := StoredValues(store);
    var a := AssignServerIP(s, v.serverIP);
    var b := AssignServerPort(a.values, v.serverPort);
    var c := AssignImageQuality(b.values, v.imageQuality);
    var d := AssignImageResolution(c.values, v.imageResolution);
    var e := AssignCameraEye(d.values, v.cameraEye);
    Assigned(e.values, a.raised + b.raised + c.raised + d.raised + e.raised)
  }

  /** `SaveSettings`: the five keys written, the enums as their integer values, other keys untouched. */
  function Save(s: Values, store: Store): (r: Store)
    ensures r.Keys == store.Keys + {ServerIPKey, ServerPortKey, ImageQualityKey, ImageResolutionKey, CameraEyeKey}
    ensures forall k :: k in store && k !in {ServerIPKey, ServerPortKey, ImageQualityKey, ImageResolutionKey, CameraEyeKey} ==>
              r[k] == store[k]
  {
    store[ServerIPKey := PrefString(s.serverIP)]
         [ServerPortKey := PrefInt(s.serverPort)]
         [ImageQualityKey := PrefInt(s.imageQuality as int32)]
         [ImageResolutionKey := PrefInt(s.imageResolution as int32)]
         [CameraEyeKey := PrefInt(s.cameraEye as int32)]
  }

  /** Saving and loading back restores identical settings and raises no event. */
  lemma SaveThenLoad(s: Values, store: Store)
    ensures StoredValues(Save(s, store)) == s
    ensures Load(s, Save(s, store)) == Assigned(s, [])
  {
    var saved := Save(s, store);
    assert GetString(saved, ServerIPKey, "192.168.1.1") == s.serverIP;
    assert GetInt(saved, ServerPortKey, 8080) == s.serverPort;
    assert GetInt(saved, ImageQualityKey, 75) == s.imageQuality as int32;
    assert GetInt(saved, ImageResolutionKey, 1) == s.imageResolution as int32;
    assert GetInt(saved, CameraEyeKey, 0) == s.cameraEye as int32;
  }

  /**
   * Each setting is read back from its key when the key holds a value of the right kind,
   * and is the fallback when the key is missing.
   */
  lemma StoredValuesReadKeys(store: Store)
    ensures var v := StoredValues(store);
            && (ServerIPKey in store && store[ServerIPKey].PrefString? ==> v.serverIP == store[ServerIPKey].s)
            && (ServerPortKey in store && store[ServerPortKey].PrefInt? ==> v.serverPort == store[ServerPortKey].i)
            && (ImageQualityKey in store && store[ImageQualityKey].PrefInt? ==>
                  v.imageQuality as int == store[ImageQualityKey].i as int)
            && (ImageResolutionKey in store && store[ImageResolutionKey].PrefInt? ==>
                  v.imageResolution as int == store[ImageResolutionKey].i as int)
            && (CameraEyeKey in store && store[CameraEyeKey].PrefInt? ==>
                  v.cameraEye as int == store[CameraEyeKey].i as int)
    ensures var v := StoredValues(store);
            && (ServerIPKey !in store ==> v.serverIP == "192.168.1.1")
            && (ServerPortKey !in store ==> v.serverPort == 8080)
            && (ImageQualityKey !in store ==> v.imageQuality == Quality75)
            && (ImageResolutionKey !in store ==> v.imageResolution == Resolution800x600)
            && (CameraEyeKey !in store ==> v.cameraEye == Left)
  {
  }

  /** From an empty store, loading gives the fallback values, which differ from the field initialisers only in the address. */
  lemma LoadFromEmptyStore()
    ensures StoredValues(map[]) == Values("192.168.1.1", 8080, Quality75, Resolution800x600, Left)
    ensures StoredValues(map[]) == FieldDefaults().(serverIP := "192.168.1.1")
  {
  }

  /** Events raised by five setters in a row, appended one call at a time or all at once. */
  lemma Regroup(r0: seq<SettingsEvent>, a: seq<SettingsEvent>, b: seq<SettingsEvent>, c: seq<SettingsEvent>,
                d: seq<SettingsEvent>, e: seq<SettingsEvent>)
    ensures r0 + a + b + c + d + e == r0 + (a + b + c + d + e)
  {
  }

  /**
   * The singleton registry behind the static `Instance`: managers are known by an
   * instance id; `destroyed` holds the ones `Awake` sent to `Destroy`.
   */
  datatype Registry = Registry(instance: Option<nat>, destroyed: set<nat>)

  /** `Awake` of the manager `id`: the first one becomes the instance, later ones are destroyed. */
  function Awake(r: Registry, id: nat): (t: Registry)
    ensures r.instance.None? ==> t == Registry(Some(id), r.destroyed)
    ensures r.instance.Some? ==> t == Registry(r.instance, r.destroyed + {id})
  {
    if r.instance == None then r.(instance := Some(id)) else r.(destroyed := r.destroyed + {id})
  }

  function AwakeAll(r: Registry, ids: seq<nat>): Registry
    decreases |ids|
  {
    if ids == [] then r else AwakeAll(Awake(r, ids[0]), ids[1..])
  }

  /** Whatever order managers wake in, the first one is the instance and every later one is destroyed. */
  lemma {:induction false} FirstAwakeWins(ids: seq<nat>)
    requires ids != []
    ensures AwakeAll(Registry(None, {}), ids) == Registry(Some(ids[0]), set i | 1 <= i < |ids| :: ids[i])
  {
    LaterAwakesDestroyed(Registry(Some(ids[0]), {}), ids[1..]);
    assert (set i | 1 <= i < |ids| :: ids[i]) == (set x | x in ids[1..]);
  }

  lemma {:induction false} LaterAwakesDestroyed(r: Registry, ids: seq<nat>)
    requires r.instance.Some?
    ensures AwakeAll(r, ids) == Registry(r.instance, r.destroyed + set x | x in ids)
    decreases |ids|
  {
    if ids != [] {
      LaterAwakesDestroyed(Awake(r, ids[0]), ids[1..]);
      assert (set x | x in ids) == {ids[0]} + (set x | x in ids[1..]);
    }
  }

  /**
   * The settings manager. `raised` is the order in which the three change events were
   * invoked; what subscribers do is not part of this model.
   */
  class SettingsManager {
    var serverIP: string
    var serverPort: int32
    var imageQuality: ImageQuality
    var imageResolution: ImageResolution
    var cameraEye: CameraEye
    var raised: seq<SettingsEvent>

    function State(): Values
      reads this
    {
      Values(serverIP, serverPort, imageQuality, imageResolution, cameraEye)
    }

    constructor ()
      ensures State() == FieldDefaults() && raised == []
    {
      serverIP, serverPort := "172.20.10.3", 8080;
      imageQuality, imageResolution, cameraEye := Quality75, Resolution800x600, Left;
      raised := [];
    }

    method SetServerIP(value: string)
      modifies this
      ensures var a := AssignServerIP(old(State()), value); State() == a.values && raised == old(raised) + a.raised
    {
      if serverIP != value {
        serverIP := value;
        raised := raised + [NetworkSettingsChanged];
      }
    }

    method SetServerPort(value: int32)
      modifies this
      ensures var a := AssignServerPort(old(State()), value); State() == a.values && raised == old(raised) + a.raised
    {
      if serverPort != value {
        serverPort := value;
        raised := raised + [NetworkSettingsChanged];
      }
    }

    method SetImageQuality(value: ImageQuality)
      modifies this
      ensures var a := AssignImageQuality(old(State()), value); State() == a.values && raised == old(raised) + a.raised
    {
      if imageQuality != value {
        imageQuality := value;
        raised := raised + [GraphicsSettingsChanged];
      }
    }

    method SetImageResolution(value: ImageResolution)
      modifies this
      ensures var a := AssignImageResolution(old(State()), value); State() == a.values && raised == old(raised) + a.raised
    {
      if imageResolution != value {
        imageResolution := value;
        raised := raised + [GraphicsSettingsChanged];
        raised := raised + [CameraSettingsChanged];
      }
    }

    method SetCameraEye(value: CameraEye)
      modifies this
      ensures var a := AssignCameraEye(old(State()), value); State() == a.values && raised == old(raised) + a.raised
    {
      if cameraEye != value {
        cameraEye := value;
        raised := raised + [CameraSettingsChanged];
      }
    }

    /** `LoadSettings`, on the registered instance. */
    method LoadSettings(store: Store)
      modifies this
      ensures var a := Load(old(State()), store); State() == a.values && raised == old(raised) + a.raised
    {
      ghost var r0 := raised;
      var v := StoredValues(store);
      ghost var a := AssignServerIP(State(), v.serverIP);
      SetServerIP(v.serverIP);
      ghost var b := AssignServerPort(State(), v.serverPort);
      SetServerPort(v.serverPort);
      ghost var c := AssignImageQuality(State(), v.imageQuality);
      SetImageQuality(v.imageQuality);
      ghost var d := AssignImageResolution(State(), v.imageResolution);
      SetImageResolution(v.imageResolution);
      ghost var e := AssignCameraEye(State(), v.cameraEye);
      SetCameraEye(v.cameraEye);
      Regroup(r0, a.raised, b.raised, c.raised, d.raised, e.raised);
    }

    /** `SaveSettings`: the store as it is after the five writes. */
    method SaveSettings(store: Store) returns (saved: Store)
      ensures StoredValues(saved) == State()
      ensures saved == Save(State(), store)
    {
      saved := store;
      saved := saved[ServerIPKey := PrefString(serverIP)];
      saved := saved[ServerPortKey := PrefInt(serverPort)];
      saved := saved[ImageQualityKey := PrefInt(imageQuality as int32)];
      saved := saved[ImageResolutionKey := PrefInt(imageResolution as int32)];
      saved := saved[CameraEyeKey := PrefInt(cameraEye as int32)];
      SaveThenLoad(State(), store);
    }
  }
}
