/**
 * The screen's controller: the preference slot holding the last successful
 * response, the displayed texts, and the refresh pipeline whose asynchronous
 * steps (permission report, location callback, HTTP callbacks) are separate
 * methods, each taking the outcome of the platform call it stands for.
 */
module Activity {
  import opened Wrappers
  import opened Models
  import opened Presenter

  /** Which location providers are switched on. */
  datatype Providers = Providers(gps: bool, network: bool)

  /** `isLocationEnabled`: the satellite or the network provider is on. */
  predicate LocationEnabled(p: Providers): (on: bool)
    ensures !on <==> p == Providers(false, false)
  {
    p.gps || p.network
  }

  /** The three ways the permission check can answer. */
  datatype PermissionReport = AllGranted | NotAllGranted | RationaleShouldBeShown

  /** A location fix. */
  datatype Fix = Fix(latitude: real, longitude: real)

  /** The answer to an enqueued weather call that reaches `onResponse`. */
  datatype Response = Successful(body: WeatherRecord) | Unsuccessful(status: int)

  /** What the user is told: the two toasts and the rationale dialog. */
  datatype Notice = TurnOnLocation | NoInternet | PermissionRequired

  /** The lazily created progress dialog. */
  datatype Progress = NotCreated | Created(showing: bool)

  class MainActivity {
    const device: Device
    /** The preference slot; `None` is the empty string stored before any success. */
    var stored: Option<WeatherRecord>
    var screen: Screen
    var notices: seq<Notice>
    /** Whether location updates have been requested (they are never removed). */
    var subscribed: bool
    /** The weather calls enqueued, with the fix each was made for. */
    var requests: seq<Fix>
    /** Enqueued calls whose callback has not run yet. */
    var pending: nat
    var progress: Progress
    /** The pull-to-refresh spinner. */
    var refreshing: bool

    /** A weather call in flight was preceded by showing the progress dialog, so the dialog exists. */
    ghost predicate Valid()
      reads this
    {
      pending > 0 ==> progress.Created?
    }

    /** The activity before `onCreate`: the slot as persisted, the inflated layout. */
    constructor (device: Device, stored: Option<WeatherRecord>, layout: Screen)
      ensures this.device == device && this.stored == stored && screen == layout
      ensures notices == [] && !subscribed && requests == [] && pending == 0
      ensures progress == NotCreated && !refreshing
      ensures Valid()
    {
      this.device := device;
      this.stored := stored;
      screen := layout;
      notices := [];
      subscribed := false;
      requests := [];
      pending := 0;
      progress := NotCreated;
      refreshing := false;
    }

    /** `setupUI`: render the stored record, if any, over the current screen. */
    method SetupUI()
      modifies this`screen
      ensures screen == Present(stored, device, old(screen))
    {
      if stored.None? {
        return;
      }
      var rec := stored.value;
      var i := 0;
      while i < |rec.weather|
        invariant 0 <= i <= |rec.weather|
        invariant screen == ApplyConditions(old(screen), rec.weather[..i])
      {
        var w := rec.weather[i];
        screen := screen.(main := w.main, description := w.description);
        if w.icon in IconTable {
          screen := screen.(icon := Res(IconTable[w.icon]));
        }
        assert rec.weather[..i + 1][..i] == rec.weather[..i];
        i := i + 1;
      }
      assert rec.weather[..i] == rec.weather;
      var unit := Celsius;
      if device.sdkAtLeastN {
        unit := GetUnit(LocaleListString(device.locales));
      }
      screen := screen.(
        temp := rec.main.temp + unit,
        sunrise := UnixTime(rec.sys.sunrise, device.tzOffset),
        sunset := UnixTime(rec.sys.sunset, device.tzOffset),
        humidity := Decimal.IntToString(rec.main.humidity) + "%",
        min := rec.main.tempMin + " min",
        max := rec.main.tempMax + " max",
        speed := rec.wind.speed,
        name := rec.name,
        country := rec.sys.country);
    }

    /** `onCreate`: render the slot, then refresh if location is on, else tell the user. */
    method OnCreate(providers: Providers, report: PermissionReport)
      requires Valid()
      ensures Valid()
      modifies this
      ensures stored == old(stored) && requests == old(requests) && pending == old(pending)
      ensures screen == Present(stored, device, old(screen))
      ensures notices == old(notices) + (if !LocationEnabled(providers) then [TurnOnLocation]
                                         else if report == RationaleShouldBeShown then [PermissionRequired]
                                         else [])
      ensures subscribed == (old(subscribed) || (LocationEnabled(providers) && report == AllGranted))
      ensures progress == old(progress) && refreshing == old(refreshing)
    {
      SetupUI();
      if LocationEnabled(providers) {
        Refresh(report);
      } else {
        notices := notices + [TurnOnLocation];
      }
    }

    /**
     * The pull-to-refresh listener: with location on, refresh and stop the
     * spinner; with location off nothing happens and the spinner keeps going.
     * The layout delivers a swipe only while its spinner is off, so after a
     * swipe with location off no further swipe arrives.
     */
    method OnSwipe(providers: Providers, report: PermissionReport)
      requires Valid()
      ensures Valid()
      requires !refreshing
      modifies this
      ensures stored == old(stored) && screen == old(screen)
      ensures requests == old(requests) && pending == old(pending)
      ensures notices == old(notices) + (if LocationEnabled(providers) && report == RationaleShouldBeShown
                                         then [PermissionRequired] else [])
      ensures subscribed == (old(subscribed) || (LocationEnabled(providers) && report == AllGranted))
      ensures progress == old(progress)
      ensures refreshing == !LocationEnabled(providers)
    {
      refreshing := true;
      if LocationEnabled(providers) {
        Refresh(report);
        refreshing := false;
      }
    }

    /** `refresh`: act on the permission report. */
    method Refresh(report: PermissionReport)
      modifies this`subscribed, this`notices
      ensures subscribed == (old(subscribed) || report == AllGranted)
      ensures notices == old(notices) + (if report == RationaleShouldBeShown then [PermissionRequired] else [])
    {
      match report
      case AllGranted =>
        RequestLocationData();
      case NotAllGranted =>
      case RationaleShouldBeShown =>
        ShowRationaleDialogForPermission();
    }

    /** `showRationaleDialogForPermission`: the "Permission required" dialog. */
    method ShowRationaleDialogForPermission()
      modifies this`notices
      ensures notices == old(notices) + [PermissionRequired]
    {
      notices := notices + [PermissionRequired];
    }

    /** `requestLocationData`: subscribe for high-accuracy updates. */
    method RequestLocationData()
      modifies this`subscribed
      ensures subscribed
    {
      subscribed := true;
    }

    /** The location callback: every delivered fix starts a weather request. */
    method OnLocationResult(fix: Fix, networkAvailable: bool)
      requires subscribed && Valid()
      ensures Valid()
      modifies this`progress, this`requests, this`pending, this`notices
      ensures requests == old(requests) + (if networkAvailable then [fix] else [])
      ensures pending == old(pending) + (if networkAvailable then 1 else 0)
      ensures progress == if networkAvailable then Created(true) else old(progress)
      ensures notices == old(notices) + (if networkAvailable then [] else [NoInternet])
    {
      GetLocationWeatherDetails(fix, networkAvailable);
    }

    /**
     * `getLocationWeatherDetails`: with a network, show the progress dialog
     * and enqueue the call; without one, tell the user and do nothing else.
     */
    method GetLocationWeatherDetails(fix: Fix, networkAvailable: bool)
      requires Valid()
      ensures Valid()
      modifies this`progress, this`requests, this`pending, this`notices
      ensures requests == old(requests) + (if networkAvailable then [fix] else [])
      ensures pending == old(pending) + (if networkAvailable then 1 else 0)
      ensures progress == if networkAvailable then Created(true) else old(progress)
      ensures notices == old(notices) + (if networkAvailable then [] else [NoInternet])
    {
      if networkAvailable {
        ShowProgressDialog();
        requests := requests + [fix];
        pending := pending + 1;
      } else {
        notices := notices + [NoInternet];
      }
    }

    /**
     * `onResponse`: a successful response overwrites the slot; either way the
     * screen is re-rendered from the slot and the progress dialog dismissed.
     */
    method OnResponse(response: Response)
      requires pending > 0 && Valid()
      modifies this`stored, this`screen, this`pending, this`progress
      ensures stored == if response.Successful? then Some(response.body) else old(stored)
      ensures screen == Present(stored, device, old(screen))
      ensures pending == old(pending) - 1
      ensures progress == Created(false)
      ensures Valid()
    {
      pending := pending - 1;
      if response.Successful? {
        stored := Some(response.body);
      }
      SetupUI();
      HideProgressDialog();
    }

    /** `onFailure`: only logs; the slot, the screen and the progress dialog stay. */
    method OnFailure()
      requires Valid()
      ensures Valid()
      requires pending > 0
      modifies this`pending
      ensures pending == old(pending) - 1
    {
      pending := pending - 1;
    }

    /** `showProgressDialog`: create the dialog on first use, then show it. */
    method ShowProgressDialog()
      modifies this`progress
      ensures progress == Created(true)
    {
      if progress.NotCreated? {
        progress := Created(false);
      }
      progress := progress.(showing := true);
    }

    /** `hideProgressDialog`: dismiss the dialog if it was ever created. */
    method HideProgressDialog()
      modifies this`progress
      ensures progress == if old(progress).NotCreated? then NotCreated else Created(false)
    {
      if progress.Created? {
        progress := progress.(showing := false);
      }
    }
  }
}
