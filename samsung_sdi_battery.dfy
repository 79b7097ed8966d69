/**
 * Battery data for Samsung SDI batteries
 * (drivers/power/supply/samsung-sdi-battery.c): constant tables of battery
 * characteristics, and `samsung_sdi_battery_get_info`, which looks a
 * battery up by its device-tree compatible string.
 */
module SamsungSdiBattery {
  import opened Errno
  import opened Wrappers

  /** One row of a `power_supply_battery_ocv_table`: open-circuit voltage (µV) and capacity (%). */
  datatype OcvCapacity = OcvCapacity(ocv: int, capacity: int)

  /** One row of a `power_supply_resistance_temp_table`: temperature (°C) and resistance scale (%). */
  datatype TempResistance = TempResistance(temp: int, resistance: int)

  /** One phase of a `power_supply_maintenance_charge_table`. */
  datatype MaintenanceCharge = MaintenanceCharge(chargeCurrentMaxUa: int, chargeVoltageMaxUv: int, chargeSafetyTimerMinutes: int)

  /**
   * A `samsung_vbat2res_{charging,discharging}_<battery>` table, by name;
   * the rows of these voltage-to-resistance tables are not part of this model.
   */
  datatype VbatRiTable = VbatRiTable(battery: string, charging: bool)

  datatype Technology = LiIon

  /**
   * The `power_supply_battery_info` fields the table sets. Each table and
   * its `*_size` field are one sequence; `ocv_temp[0]` and `ocv_table[0]`
   * are the only OCV slots used.
   */
  datatype BatteryInfo = BatteryInfo(
    chargeFullDesignUah: int, technology: Technology,
    factoryInternalResistanceUohm: int, factoryInternalResistanceChargingUohm: int,
    voltageMinDesignUv: int, voltageMaxDesignUv: int, overvoltageLimitUv: int,
    constantChargeCurrentMaxUa: int, constantChargeVoltageMaxUv: int,
    chargeTermCurrentUa: int, chargeRestartVoltageUv: int,
    maintenanceCharge: seq<MaintenanceCharge>,
    alertLowTempChargeCurrentUa: int, alertLowTempChargeVoltageUv: int,
    alertHighTempChargeCurrentUa: int, alertHighTempChargeVoltageUv: int,
    tempMin: int, tempAlertMin: int, tempAlertMax: int, tempMax: int,
    resistTable: seq<TempResistance>, ocvTemp: int, ocvTable: seq<OcvCapacity>,
    vbat2riDischarging: VbatRiTable, vbat2riCharging: VbatRiTable,
    btiResistanceOhm: int, btiResistanceTolerance: int)

  /** `struct samsung_sdi_battery`. */
  datatype Battery = Battery(compatible: string, name: string, info: BatteryInfo)

  /** `samsung_temp2res`, lines 434-443: 100% at every temperature, for want of vendor data. */
  const Temp2Res: seq<TempResistance> := [
    TempResistance(50, 100), TempResistance(40, 100), TempResistance(30, 100), TempResistance(20, 100),
    TempResistance(10, 100), TempResistance(0, 100), TempResistance(-10, 100), TempResistance(-20, 100)
  ]

  /** `samsung_maint_charge_table`, lines 616-629: phase A for 60 hours, phase B for 200. */
  const MaintenanceTable: seq<MaintenanceCharge> := [
    MaintenanceCharge(600000, 4150000, 60 * 60),
    MaintenanceCharge(600000, 4100000, 200 * 60)
  ]

  // The OCV tables, each written in two halves of two runs of rows.

  /** Lines 451-462. */
  const OcvEb485159luHigh1: seq<OcvCapacity> := [
    OcvCapacity(4330000, 100), OcvCapacity(4320000, 99), OcvCapacity(4283000, 95),
    OcvCapacity(4246000, 92), OcvCapacity(4211000, 89), OcvCapacity(4167000, 85),
    OcvCapacity(4146000, 83), OcvCapacity(4124000, 81), OcvCapacity(4062000, 75),
    OcvCapacity(4013000, 70), OcvCapacity(3977000, 66), OcvCapacity(3931000, 60)
  ]

  /** Lines 463-474. */
  const OcvEb485159luHigh2: seq<OcvCapacity> := [
    OcvCapacity(3914000, 58), OcvCapacity(3901000, 57), OcvCapacity(3884000, 56),
    OcvCapacity(3870000, 55), OcvCapacity(3862000, 54), OcvCapacity(3854000, 53),
    OcvCapacity(3838000, 50), OcvCapacity(3823000, 47), OcvCapacity(3813000, 45),
    OcvCapacity(3807000, 43), OcvCapacity(3800000, 41), OcvCapacity(3795000, 40)
  ]

  const OcvEb485159luHigh: seq<OcvCapacity> := OcvEb485159luHigh1 + OcvEb485159luHigh2

  /** Lines 475-486. */
  const OcvEb485159luLow1: seq<OcvCapacity> := [
    OcvCapacity(3786000, 37), OcvCapacity(3783000, 35), OcvCapacity(3773000, 30),
    OcvCapacity(3758000, 25), OcvCapacity(3745000, 22), OcvCapacity(3738000, 20),
    OcvCapacity(3733000, 19), OcvCapacity(3716000, 17), OcvCapacity(3709000, 16),
    OcvCapacity(3698000, 15), OcvCapacity(3687000, 14), OcvCapacity(3684000, 13)
  ]

  /** Lines 487-498. */
  const OcvEb485159luLow2: seq<OcvCapacity> := [
    OcvCapacity(3684000, 12), OcvCapacity(3678000, 10), OcvCapacity(3671000, 9),
    OcvCapacity(3665000, 8), OcvCapacity(3651000, 7), OcvCapacity(3634000, 6),
    OcvCapacity(3601000, 5), OcvCapacity(3564000, 4), OcvCapacity(3516000, 3),
    OcvCapacity(3456000, 2), OcvCapacity(3381000, 1), OcvCapacity(3300000, 0)
  ]

  const OcvEb485159luLow: seq<OcvCapacity> := OcvEb485159luLow1 + OcvEb485159luLow2

  /** `samsung_ocv_cap_eb485159lu`, lines 451-498. */
  const OcvEb485159lu: seq<OcvCapacity> := OcvEb485159luHigh + OcvEb485159luLow

  /** Lines 503-512. */
  const Ocv1500mahHigh1: seq<OcvCapacity> := [
    OcvCapacity(4328000, 100), OcvCapacity(4299000, 99), OcvCapacity(4281000, 98),
    OcvCapacity(4241000, 95), OcvCapacity(4183000, 90), OcvCapacity(4150000, 87),
    OcvCapacity(4116000, 84), OcvCapacity(4077000, 80), OcvCapacity(4068000, 79),
    OcvCapacity(4058000, 77)
  ]

  /** Lines 513-521. */
  const Ocv1500mahHigh2: seq<OcvCapacity> := [
    OcvCapacity(4026000, 75), OcvCapacity(3987000, 72), OcvCapacity(3974000, 69),
    OcvCapacity(3953000, 66), OcvCapacity(3933000, 63), OcvCapacity(3911000, 60),
    OcvCapacity(3900000, 58), OcvCapacity(3873000, 55), OcvCapacity(3842000, 52)
  ]

  const Ocv1500mahHigh: seq<OcvCapacity> := Ocv1500mahHigh1 + Ocv1500mahHigh2

  /** Lines 522-531. */
  const Ocv1500mahLow1: seq<OcvCapacity> := [
    OcvCapacity(3829000, 50), OcvCapacity(3810000, 45), OcvCapacity(3793000, 40),
    OcvCapacity(3783000, 35), OcvCapacity(3776000, 30), OcvCapacity(3762000, 25),
    OcvCapacity(3746000, 20), OcvCapacity(3739000, 18), OcvCapacity(3715000, 15),
    OcvCapacity(3700000, 12)
  ]

  /** Lines 532-540. */
  const Ocv1500mahLow2: seq<OcvCapacity> := [
    OcvCapacity(3690000, 10), OcvCapacity(3680000, 9), OcvCapacity(3670000, 7),
    OcvCapacity(3656000, 5), OcvCapacity(3634000, 4), OcvCapacity(3614000, 3),
    OcvCapacity(3551000, 2), OcvCapacity(3458000, 1), OcvCapacity(3300000, 0)
  ]

  const Ocv1500mahLow: seq<OcvCapacity> := Ocv1500mahLow1 + Ocv1500mahLow2

  /** `samsung_ocv_cap_1500mah`, lines 503-540. */
  const Ocv1500mah: seq<OcvCapacity> := Ocv1500mahHigh + Ocv1500mahLow

  /** Lines 544-551. */
  const OcvEb535151vuHigh1: seq<OcvCapacity> := [
    OcvCapacity(4178000, 100), OcvCapacity(4148000, 99), OcvCapacity(4105000, 95),
    OcvCapacity(4078000, 92), OcvCapacity(4057000, 89), OcvCapacity(4013000, 85),
    OcvCapacity(3988000, 82), OcvCapacity(3962000, 77)
  ]

  /** Lines 552-558. */
  const OcvEb535151vuHigh2: seq<OcvCapacity> := [
    OcvCapacity(3920000, 70), OcvCapacity(3891000, 65), OcvCapacity(3874000, 62),
    OcvCapacity(3839000, 59), OcvCapacity(3816000, 55), OcvCapacity(3798000, 50),
    OcvCapacity(3778000, 40)
  ]

  const OcvEb535151vuHigh: seq<OcvCapacity> := OcvEb535151vuHigh1 + OcvEb535151vuHigh2

  /** Lines 559-565. */
  const OcvEb535151vuLow1: seq<OcvCapacity> := [
    OcvCapacity(3764000, 30), OcvCapacity(3743000, 25), OcvCapacity(3711000, 20),
    OcvCapacity(3691000, 18), OcvCapacity(3685000, 15), OcvCapacity(3680000, 12),
    OcvCapacity(3662000, 10)
  ]

  /** Lines 566-572. */
  const OcvEb535151vuLow2: seq<OcvCapacity> := [
    OcvCapacity(3638000, 9), OcvCapacity(3593000, 7), OcvCapacity(3566000, 6),
    OcvCapacity(3497000, 4), OcvCapacity(3405000, 2), OcvCapacity(3352000, 1),
    OcvCapacity(3300000, 0)
  ]

  const OcvEb535151vuLow: seq<OcvCapacity> := OcvEb535151vuLow1 + OcvEb535151vuLow2

  /** `samsung_ocv_cap_eb535151vu`, lines 544-572. */
  const OcvEb535151vu: seq<OcvCapacity> := OcvEb535151vuHigh + OcvEb535151vuLow

  /** Lines 576-585. */
  const OcvEb585157luHigh1: seq<OcvCapacity> := [
    OcvCapacity(4320000, 100), OcvCapacity(4296000, 99), OcvCapacity(4283000, 98),
    OcvCapacity(4245000, 95), OcvCapacity(4185000, 90), OcvCapacity(4152000, 87),
    OcvCapacity(4119000, 84), OcvCapacity(4077000, 80), OcvCapacity(4057000, 78),
    OcvCapacity(4048000, 77)
  ]

  /** Lines 586-594. */
  const OcvEb585157luHigh2: seq<OcvCapacity> := [
    OcvCapacity(4020000, 74), OcvCapacity(4003000, 72), OcvCapacity(3978000, 69),
    OcvCapacity(3955000, 66), OcvCapacity(3934000, 63), OcvCapacity(3912000, 60),
    OcvCapacity(3894000, 58), OcvCapacity(3860000, 55), OcvCapacity(3837000, 52)
  ]

  const OcvEb585157luHigh: seq<OcvCapacity> := OcvEb585157luHigh1 + OcvEb585157luHigh2

  /** Lines 595-604. */
  const OcvEb585157luLow1: seq<OcvCapacity> := [
    OcvCapacity(3827000, 50), OcvCapacity(3806000, 45), OcvCapacity(3791000, 40),
    OcvCapacity(3779000, 35), OcvCapacity(3770000, 30), OcvCapacity(3758000, 25),
    OcvCapacity(3739000, 20), OcvCapacity(3730000, 18), OcvCapacity(3706000, 15),
    OcvCapacity(3684000, 13)
  ]

  /** Lines 605-613. */
  const OcvEb585157luLow2: seq<OcvCapacity> := [
    OcvCapacity(3675000, 10), OcvCapacity(3673000, 9), OcvCapacity(3665000, 7),
    OcvCapacity(3649000, 5), OcvCapacity(3628000, 4), OcvCapacity(3585000, 3),
    OcvCapacity(3525000, 2), OcvCapacity(3441000, 1), OcvCapacity(3300000, 0)
  ]

  const OcvEb585157luLow: seq<OcvCapacity> := OcvEb585157luLow1 + OcvEb585157luLow2

  /** `samsung_ocv_cap_eb585157lu`, lines 576-613. */
  const OcvEb585157lu: seq<OcvCapacity> := OcvEb585157luHigh + OcvEb585157luLow
  /** Lines 637-675. */
  const BatteryEbL1m7flu := Battery("samsung,eb-l1m7flu", "EB-L1M7FLU", BatteryInfo(
    chargeFullDesignUah := 1500000, technology := LiIon,
    factoryInternalResistanceUohm := 100000, factoryInternalResistanceChargingUohm := 200000,
    voltageMinDesignUv := 3320000, voltageMaxDesignUv := 4340000, overvoltageLimitUv := 4500000,
    constantChargeCurrentMaxUa := 900000, constantChargeVoltageMaxUv := 4320000,
    chargeTermCurrentUa := 200000, chargeRestartVoltageUv := 4300000,
    maintenanceCharge := MaintenanceTable,
    alertLowTempChargeCurrentUa := 300000, alertLowTempChargeVoltageUv := 4000000,
    alertHighTempChargeCurrentUa := 300000, alertHighTempChargeVoltageUv := 4000000,
    tempMin := -50, tempAlertMin := 0, tempAlertMax := 40, tempMax := 60,
    resistTable := Temp2Res, ocvTemp := 25, ocvTable := Ocv1500mah,
    vbat2riDischarging := VbatRiTable("eb_l1m7flu", false), vbat2riCharging := VbatRiTable("eb_l1m7flu", true),
    btiResistanceOhm := 2400, btiResistanceTolerance := 40))

  /** Lines 681-719. */
  const BatteryEb425161la := Battery("samsung,eb425161la", "EB425161LA", BatteryInfo(
    chargeFullDesignUah := 1500000, technology := LiIon,
    factoryInternalResistanceUohm := 136000, factoryInternalResistanceChargingUohm := 200000,
    voltageMinDesignUv := 3320000, voltageMaxDesignUv := 4340000, overvoltageLimitUv := 4500000,
    constantChargeCurrentMaxUa := 900000, constantChargeVoltageMaxUv := 4320000,
    chargeTermCurrentUa := 200000, chargeRestartVoltageUv := 4270000,
    maintenanceCharge := MaintenanceTable,
    alertLowTempChargeCurrentUa := 300000, alertLowTempChargeVoltageUv := 4000000,
    alertHighTempChargeCurrentUa := 300000, alertHighTempChargeVoltageUv := 4000000,
    tempMin := -30, tempAlertMin := 0, tempAlertMax := 40, tempMax := 47,
    resistTable := Temp2Res, ocvTemp := 25, ocvTable := Ocv1500mah,
    vbat2riDischarging := VbatRiTable("eb425161la", false), vbat2riCharging := VbatRiTable("eb425161la", true),
    btiResistanceOhm := 2400, btiResistanceTolerance := 40))

  /** Lines 725-763. */
  const BatteryEb425161lu := Battery("samsung,eb425161lu", "EB425161LU", BatteryInfo(
    chargeFullDesignUah := 1500000, technology := LiIon,
    factoryInternalResistanceUohm := 100000, factoryInternalResistanceChargingUohm := 200000,
    voltageMinDesignUv := 3320000, voltageMaxDesignUv := 4350000, overvoltageLimitUv := 4500000,
    constantChargeCurrentMaxUa := 900000, constantChargeVoltageMaxUv := 4340000,
    chargeTermCurrentUa := 200000, chargeRestartVoltageUv := 4280000,
    maintenanceCharge := MaintenanceTable,
    alertLowTempChargeCurrentUa := 300000, alertLowTempChargeVoltageUv := 4000000,
    alertHighTempChargeCurrentUa := 300000, alertHighTempChargeVoltageUv := 4000000,
    tempMin := -50, tempAlertMin := 0, tempAlertMax := 43, tempMax := 49,
    resistTable := Temp2Res, ocvTemp := 25, ocvTable := Ocv1500mah,
    vbat2riDischarging := VbatRiTable("eb425161lu", false), vbat2riCharging := VbatRiTable("eb425161lu", true),
    btiResistanceOhm := 2400, btiResistanceTolerance := 40))

  /** Lines 769-807. */
  const BatteryEb485159lu := Battery("samsung,eb485159lu", "EB485159LU", BatteryInfo(
    chargeFullDesignUah := 1700000, technology := LiIon,
    factoryInternalResistanceUohm := 100000, factoryInternalResistanceChargingUohm := 200000,
    voltageMinDesignUv := 3320000, voltageMaxDesignUv := 4350000, overvoltageLimitUv := 4500000,
    constantChargeCurrentMaxUa := 900000, constantChargeVoltageMaxUv := 4340000,
    chargeTermCurrentUa := 200000, chargeRestartVoltageUv := 4300000,
    maintenanceCharge := MaintenanceTable,
    alertLowTempChargeCurrentUa := 300000, alertLowTempChargeVoltageUv := 4000000,
    alertHighTempChargeCurrentUa := 300000, alertHighTempChargeVoltageUv := 4000000,
    tempMin := -50, tempAlertMin := 0, tempAlertMax := 40, tempMax := 60,
    resistTable := Temp2Res, ocvTemp := 25, ocvTable := OcvEb485159lu,
    vbat2riDischarging := VbatRiTable("eb485159lu", false), vbat2riCharging := VbatRiTable("eb485159lu", true),
    btiResistanceOhm := 2400, btiResistanceTolerance := 40))

  /** Lines 813-851. */
  const BatteryEb535151vu := Battery("samsung,eb535151vu", "EB535151VU", BatteryInfo(
    chargeFullDesignUah := 1500000, technology := LiIon,
    factoryInternalResistanceUohm := 100000, factoryInternalResistanceChargingUohm := 200000,
    voltageMinDesignUv := 3300000, voltageMaxDesignUv := 4180000, overvoltageLimitUv := 4500000,
    constantChargeCurrentMaxUa := 900000, constantChargeVoltageMaxUv := 4200000,
    chargeTermCurrentUa := 200000, chargeRestartVoltageUv := 4170000,
    maintenanceCharge := MaintenanceTable,
    alertLowTempChargeCurrentUa := 300000, alertLowTempChargeVoltageUv := 4000000,
    alertHighTempChargeCurrentUa := 300000, alertHighTempChargeVoltageUv := 4000000,
    tempMin := -5, tempAlertMin := 0, tempAlertMax := 40, tempMax := 60,
    resistTable := Temp2Res, ocvTemp := 25, ocvTable := OcvEb535151vu,
    vbat2riDischarging := VbatRiTable("eb535151vu", false), vbat2riCharging := VbatRiTable("eb535151vu", true),
    btiResistanceOhm := 1500, btiResistanceTolerance := 40))

  /** Lines 857-895. */
  const BatteryEb585157lu := Battery("samsung,eb585157lu", "EB585157LU", BatteryInfo(
    chargeFullDesignUah := 2000000, technology := LiIon,
    factoryInternalResistanceUohm := 105000, factoryInternalResistanceChargingUohm := 160000,
    voltageMinDesignUv := 3300000, voltageMaxDesignUv := 4320000, overvoltageLimitUv := 4500000,
    constantChargeCurrentMaxUa := 1500000, constantChargeVoltageMaxUv := 4350000,
    chargeTermCurrentUa := 120000, chargeRestartVoltageUv := 4300000,
    maintenanceCharge := MaintenanceTable,
    alertLowTempChargeCurrentUa := 300000, alertLowTempChargeVoltageUv := 4000000,
    alertHighTempChargeCurrentUa := 300000, alertHighTempChargeVoltageUv := 4000000,
    tempMin := -5, tempAlertMin := 0, tempAlertMax := 40, tempMax := 60,
    resistTable := Temp2Res, ocvTemp := 25, ocvTable := OcvEb585157lu,
    vbat2riDischarging := VbatRiTable("eb585157lu", false), vbat2riCharging := VbatRiTable("eb585157lu", true),
    btiResistanceOhm := 2400, btiResistanceTolerance := 40))

  /** `samsung_sdi_batteries`, lines 631-896. */
  const Batteries: seq<Battery> := [BatteryEbL1m7flu, BatteryEb425161la, BatteryEb425161lu, BatteryEb485159lu, BatteryEb535151vu, BatteryEb585157lu]

  // ---------------------------------------------------------------- lookup

  /**
   * The index at which the lookup loop stops when it starts at `from`: the
   * first entry from there on whose compatible string is `compatible`, or
   * the table size when there is none.
   */
  function FirstMatch(table: seq<Battery>, compatible: string, from: nat): (r: nat)
    requires from <= |table|
    ensures from <= r <= |table|
    ensures r < |table| ==> table[r].compatible == compatible
    ensures forall j :: from <= j < r ==> table[j].compatible != compatible
    decreases |table| - from
  {
    if from == |table| then from
    else if table[from].compatible == compatible then from
    else FirstMatch(table, compatible, from + 1)
  }

  /** The caller's `struct power_supply_battery_info *`: which table entry's `info` it points at, if any. */
  class InfoPointer {
    var target: Option<nat>

    constructor (target: Option<nat>)
      ensures this.target == target
    {
      this.target := target;
    }
  }

  /**
   * `samsung_sdi_battery_get_info`: walk the table until an entry's
   * compatible string equals the argument (`strcmp` returns 0); on a match
   * point `*info` at that entry's `info` and return 0, otherwise return
   * -ENODEV and leave `*info` alone. The `dev_info` message is not modelled.
   */
  method GetInfo(compatible: string, info: InfoPointer) returns (ret: int)
    modifies info
    ensures var i := FirstMatch(Batteries, compatible, 0);
            (i == |Batteries| ==> ret == -ENODEV && info.target == old(info.target)) &&
            (i < |Batteries| ==> ret == 0 && info.target == Some(i))
  {
    var i := 0;
    while i < |Batteries|
      invariant 0 <= i <= |Batteries|
      invariant FirstMatch(Batteries, compatible, i) == FirstMatch(Batteries, compatible, 0)
      invariant info.target == old(info.target)
    {
      var batt := Batteries[i];
      if compatible == batt.compatible {
        break;
      }
      i := i + 1;
    }
    if i == |Batteries| {
      return -ENODEV;
    }
    info.target := Some(i);
    return 0;
  }

  /** The six compatible strings are pairwise distinct. */
  lemma CompatiblesDistinct()
    ensures |Batteries| == 6
    ensures forall i, j :: 0 <= i < j < |Batteries| ==> Batteries[i].compatible != Batteries[j].compatible
  {
  }

  /** So the lookup finds entry `i` exactly for that entry's own string: the first match is the only one. */
  lemma FirstMatchUnique(compatible: string, i: nat)
    requires i < |Batteries|
    ensures FirstMatch(Batteries, compatible, 0) == i <==> Batteries[i].compatible == compatible
  {
    CompatiblesDistinct();
  }

  // ---------------------------------------------------------------- table order

  /**
   * Sorted by falling OCV, as the tables' comment requires, with the
   * capacity strictly falling along.
   */
  predicate Sorted(t: seq<OcvCapacity>)
  {
    forall i :: 0 <= i < |t| - 1 ==> t[i].ocv >= t[i + 1].ocv && t[i].capacity > t[i + 1].capacity
  }

  lemma SortedAppend(a: seq<OcvCapacity>, b: seq<OcvCapacity>)
    requires Sorted(a) && Sorted(b) && |a| > 0 && |b| > 0
    requires a[|a| - 1].ocv >= b[0].ocv && a[|a| - 1].capacity > b[0].capacity
    ensures Sorted(a + b)
  {
    forall i | 0 <= i < |a + b| - 1
      ensures (a + b)[i].ocv >= (a + b)[i + 1].ocv && (a + b)[i].capacity > (a + b)[i + 1].capacity
    {
      if i + 1 < |a| {
        assert (a + b)[i] == a[i] && (a + b)[i + 1] == a[i + 1];
      } else if i + 1 == |a| {
        assert (a + b)[i] == a[i] && (a + b)[i + 1] == b[0];
      } else {
        assert (a + b)[i] == b[i - |a|] && (a + b)[i + 1] == b[i + 1 - |a|];
      }
    }
  }

  /** The same order checked row by row from the front. */
  predicate Falling(t: seq<OcvCapacity>)
  {
    |t| < 2 || (t[0].ocv >= t[1].ocv && t[0].capacity > t[1].capacity && Falling(t[1..]))
  }

  lemma {:induction false} FallingSorted(t: seq<OcvCapacity>)
    requires Falling(t)
    ensures Sorted(t)
  {
    if |t| >= 2 {
      FallingSorted(t[1..]);
      forall i | 0 <= i < |t| - 1
        ensures t[i].ocv >= t[i + 1].ocv && t[i].capacity > t[i + 1].capacity
      {
        if i > 0 {
          assert t[i] == t[1..][i - 1] && t[i + 1] == t[1..][i];
        }
      }
    }
  }

  // Each run of rows is sorted on its own, and so is each half.
  lemma OcvEb485159luHigh1Sorted() ensures Sorted(OcvEb485159luHigh1) { FallingSorted(OcvEb485159luHigh1); }
  lemma OcvEb485159luHigh2Sorted() ensures Sorted(OcvEb485159luHigh2) { FallingSorted(OcvEb485159luHigh2); }
  lemma OcvEb485159luLow1Sorted() ensures Sorted(OcvEb485159luLow1) { FallingSorted(OcvEb485159luLow1); }
  lemma OcvEb485159luLow2Sorted() ensures Sorted(OcvEb485159luLow2) { FallingSorted(OcvEb485159luLow2); }
  lemma Ocv1500mahHigh1Sorted() ensures Sorted(Ocv1500mahHigh1) { FallingSorted(Ocv1500mahHigh1); }
  lemma Ocv1500mahHigh2Sorted() ensures Sorted(Ocv1500mahHigh2) { FallingSorted(Ocv1500mahHigh2); }
  lemma Ocv1500mahLow1Sorted() ensures Sorted(Ocv1500mahLow1) { FallingSorted(Ocv1500mahLow1); }
  lemma Ocv1500mahLow2Sorted() ensures Sorted(Ocv1500mahLow2) { FallingSorted(Ocv1500mahLow2); }
  lemma OcvEb535151vuHigh1Sorted() ensures Sorted(OcvEb535151vuHigh1) { FallingSorted(OcvEb535151vuHigh1); }
  lemma OcvEb535151vuHigh2Sorted() ensures Sorted(OcvEb535151vuHigh2) { FallingSorted(OcvEb535151vuHigh2); }
  lemma OcvEb535151vuLow1Sorted() ensures Sorted(OcvEb535151vuLow1) { FallingSorted(OcvEb535151vuLow1); }
  lemma OcvEb535151vuLow2Sorted() ensures Sorted(OcvEb535151vuLow2) { FallingSorted(OcvEb535151vuLow2); }
  lemma OcvEb585157luHigh1Sorted() ensures Sorted(OcvEb585157luHigh1) { FallingSorted(OcvEb585157luHigh1); }
  lemma OcvEb585157luHigh2Sorted() ensures Sorted(OcvEb585157luHigh2) { FallingSorted(OcvEb585157luHigh2); }
  lemma OcvEb585157luLow1Sorted() ensures Sorted(OcvEb585157luLow1) { FallingSorted(OcvEb585157luLow1); }
  lemma OcvEb585157luLow2Sorted() ensures Sorted(OcvEb585157luLow2) { FallingSorted(OcvEb585157luLow2); }

  lemma OcvEb485159luHighSorted()
    ensures Sorted(OcvEb485159luHigh)
  {
    OcvEb485159luHigh1Sorted();
    OcvEb485159luHigh2Sorted();
    SortedAppend(OcvEb485159luHigh1, OcvEb485159luHigh2);
  }

  lemma OcvEb485159luLowSorted()
    ensures Sorted(OcvEb485159luLow)
  {
    OcvEb485159luLow1Sorted();
    OcvEb485159luLow2Sorted();
    SortedAppend(OcvEb485159luLow1, OcvEb485159luLow2);
  }

  lemma Ocv1500mahHighSorted()
    ensures Sorted(Ocv1500mahHigh)
  {
    Ocv1500mahHigh1Sorted();
    Ocv1500mahHigh2Sorted();
    SortedAppend(Ocv1500mahHigh1, Ocv1500mahHigh2);
  }

  lemma Ocv1500mahLowSorted()
    ensures Sorted(Ocv1500mahLow)
  {
    Ocv1500mahLow1Sorted();
    Ocv1500mahLow2Sorted();
    SortedAppend(Ocv1500mahLow1, Ocv1500mahLow2);
  }

  lemma OcvEb535151vuHighSorted()
    ensures Sorted(OcvEb535151vuHigh)
  {
    OcvEb535151vuHigh1Sorted();
    OcvEb535151vuHigh2Sorted();
    SortedAppend(OcvEb535151vuHigh1, OcvEb535151vuHigh2);
  }

  lemma OcvEb535151vuLowSorted()
    ensures Sorted(OcvEb535151vuLow)
  {
    OcvEb535151vuLow1Sorted();
    OcvEb535151vuLow2Sorted();
    SortedAppend(OcvEb535151vuLow1, OcvEb535151vuLow2);
  }

  lemma OcvEb585157luHighSorted()
    ensures Sorted(OcvEb585157luHigh)
  {
    OcvEb585157luHigh1Sorted();
    OcvEb585157luHigh2Sorted();
    SortedAppend(OcvEb585157luHigh1, OcvEb585157luHigh2);
  }

  lemma OcvEb585157luLowSorted()
    ensures Sorted(OcvEb585157luLow)
  {
    OcvEb585157luLow1Sorted();
    OcvEb585157luLow2Sorted();
    SortedAppend(OcvEb585157luLow1, OcvEb585157luLow2);
  }

  lemma OcvEb485159luSorted()
    ensures Sorted(OcvEb485159lu)
  {
    OcvEb485159luHighSorted();
    OcvEb485159luLowSorted();
    SortedAppend(OcvEb485159luHigh, OcvEb485159luLow);
  }

  lemma Ocv1500mahSorted()
    ensures Sorted(Ocv1500mah)
  {
    Ocv1500mahHighSorted();
    Ocv1500mahLowSorted();
    SortedAppend(Ocv1500mahHigh, Ocv1500mahLow);
  }

  lemma OcvEb535151vuSorted()
    ensures Sorted(OcvEb535151vu)
  {
    OcvEb535151vuHighSorted();
    OcvEb535151vuLowSorted();
    SortedAppend(OcvEb535151vuHigh, OcvEb535151vuLow);
  }

  lemma OcvEb585157luSorted()
    ensures Sorted(OcvEb585157lu)
  {
    OcvEb585157luHighSorted();
    OcvEb585157luLowSorted();
    SortedAppend(OcvEb585157luHigh, OcvEb585157luLow);
  }

  /** Every battery's OCV table is sorted by falling OCV and runs from 100% down to 0%. */
  lemma OcvTablesSorted(i: nat)
    requires i < |Batteries|
    ensures var t := Batteries[i].info.ocvTable;
            Sorted(t) && |t| > 0 && t[0].capacity == 100 && t[|t| - 1].capacity == 0
  {
    var t := Batteries[i].info.ocvTable;
    if t == OcvEb485159lu {
      OcvEb485159luSorted();
    } else if t == Ocv1500mah {
      Ocv1500mahSorted();
    } else if t == OcvEb585157lu {
      OcvEb585157luSorted();
    } else {
      assert t == OcvEb535151vu;
      OcvEb535151vuSorted();
    }
  }

  /** The order is not strict: two rows of the EB485159LU table share 3684000 µV. */
  lemma OcvRepeats()
    ensures OcvEb485159lu[35] == OcvCapacity(3684000, 13) && OcvEb485159lu[36] == OcvCapacity(3684000, 12)
  {
  }

  /** Every battery shares the temperature table, whose resistance is 100% at every temperature from 50 °C down to -20 °C. */
  lemma TempTableFlat(i: nat)
    requires i < |Batteries|
    ensures Batteries[i].info.resistTable == Temp2Res
    ensures forall k :: 0 <= k < |Temp2Res| ==> Temp2Res[k].resistance == 100 && Temp2Res[k].temp == 50 - 10 * k
  {
  }
}
