/**
 * The two custom error types of pkg/err/errors.go and their messages. Each
 * message is a function of the error's fields only.
 */
module CusErr {

  /** A mount refused because the volume already holds another filesystem. */
  datatype ExistsFormatErr = ExistsFormatErr(fsType: string, existingFormat: string, mountErr: string)

  /** A configured device that is not present on the node. */
  datatype DeviceNotExistsErr = DeviceNotExistsErr(device: string)

  const ExistsFormatLead: string := "Failed to mount the volume as :"
  const ExistsFormatMiddle: string := ", volume has already contains "
  const ExistsFormatTail: string := ", volume Mount error: "
  const DeviceLead: string := "Device ["
  const DeviceTail: string := "] not exists in current node"

  /** `ExistsFormatErr.Error()`; the mount error is printed by its own message. */
  function ExistsFormatMessage(e: ExistsFormatErr): (msg: string)
    ensures |msg| == |ExistsFormatLead| + |e.fsType| + |ExistsFormatMiddle| + |e.existingFormat| + |ExistsFormatTail| + |e.mountErr|
    ensures msg[..|ExistsFormatLead|] == ExistsFormatLead
    ensures msg[|msg| - |e.mountErr|..] == e.mountErr
  {
    ExistsFormatLead + e.fsType + ExistsFormatMiddle + e.existingFormat + ExistsFormatTail + e.mountErr
  }

  /** `DeviceNotExistsErr.Error()`. */
  function DeviceNotExistsMessage(e: DeviceNotExistsErr): (msg: string)
    ensures |msg| == |DeviceLead| + |e.device| + |DeviceTail|
    ensures msg[|DeviceLead|..|DeviceLead| + |e.device|] == e.device
  {
    var msg := DeviceLead + e.device + DeviceTail;
    assert msg[|DeviceLead|..|DeviceLead| + |e.device|] == e.device;
    msg
  }

  /** The device can be read back from the message, so different devices give different messages. */
  lemma DeviceNotExistsInjective(a: DeviceNotExistsErr, b: DeviceNotExistsErr)
    ensures DeviceNotExistsMessage(a) == DeviceNotExistsMessage(b) <==> a == b
  {
    if DeviceNotExistsMessage(a) == DeviceNotExistsMessage(b) {
      var m := DeviceNotExistsMessage(a);
      assert |a.device| == |b.device|;
      assert a.device == m[|DeviceLead|..|DeviceLead| + |a.device|] == b.device;
    }
  }

  /** Where the two filesystem names sit in the message. */
  lemma ExistsFormatFields(e: ExistsFormatErr)
    ensures var m := ExistsFormatMessage(e);
      var i := |ExistsFormatLead|;
      var j := i + |e.fsType| + |ExistsFormatMiddle|;
      m[i..i + |e.fsType|] == e.fsType && m[j..j + |e.existingFormat|] == e.existingFormat
  {
    var head := ExistsFormatLead + e.fsType;
    var mid := head + ExistsFormatMiddle + e.existingFormat;
    var m := ExistsFormatMessage(e);
    assert m == mid + ExistsFormatTail + e.mountErr;
    assert m[..|mid|] == mid;
    assert mid[..|head|] == head;
    assert head[|ExistsFormatLead|..] == e.fsType;
    assert mid[|head| + |ExistsFormatMiddle|..] == e.existingFormat;
  }

  /** Among errors whose filesystem names have the same lengths, the message determines every field. */
  lemma ExistsFormatInjective(a: ExistsFormatErr, b: ExistsFormatErr)
    requires |a.fsType| == |b.fsType| && |a.existingFormat| == |b.existingFormat|
    ensures ExistsFormatMessage(a) == ExistsFormatMessage(b) <==> a == b
  {
    if ExistsFormatMessage(a) == ExistsFormatMessage(b) {
      ExistsFormatFields(a);
      ExistsFormatFields(b);
      assert |a.mountErr| == |b.mountErr|;
    }
  }

  /** The case of the error test: ext4 over xfs with "error mount". */
  lemma ExistsFormatExample()
    ensures ExistsFormatMessage(ExistsFormatErr("ext4", "xfs", "error mount"))
            == "Failed to mount the volume as :ext4, volume has already contains xfs, volume Mount error: error mount"
  {
    var m := ExistsFormatMessage(ExistsFormatErr("ext4", "xfs", "error mount"));
    assert m == ExistsFormatLead + "ext4" + ExistsFormatMiddle + "xfs" + ExistsFormatTail + "error mount";
    ExampleLead();
    ExampleMiddle();
    ExampleXfs();
    ExampleMountTail();
    ExampleMountErr();
  }

  // Each step below appends one piece of the message; one proof of the
  // whole literal is too expensive for the verifier.

  lemma ExampleLead()
    ensures ExistsFormatLead + "ext4" == "Failed to mount the volume as :ext4"
  {
  }

  lemma ExampleMiddle()
    ensures "Failed to mount the volume as :ext4" + ExistsFormatMiddle == "Failed to mount the volume as :ext4, volume has already contains "
  {
  }

  lemma ExampleXfs()
    ensures "Failed to mount the volume as :ext4, volume has already contains " + "xfs"
            == "Failed to mount the volume as :ext4, volume has already contains xfs"
  {
  }

  lemma ExampleMountTail()
    ensures "Failed to mount the volume as :ext4, volume has already contains xfs" + ExistsFormatTail
            == "Failed to mount the volume as :ext4, volume has already contains xfs, volume Mount error: "
  {
  }

  lemma ExampleMountErr()
    ensures "Failed to mount the volume as :ext4, volume has already contains xfs, volume Mount error: " + "error mount"
            == "Failed to mount the volume as :ext4, volume has already contains xfs, volume Mount error: error mount"
  {
  }

  /** The case of the error test: /dev/vdc. */
  lemma DeviceNotExistsExample()
    ensures DeviceNotExistsMessage(DeviceNotExistsErr("/dev/vdc")) == "Device [/dev/vdc] not exists in current node"
  {
    assert DeviceNotExistsMessage(DeviceNotExistsErr("/dev/vdc")) == DeviceLead + "/dev/vdc" + DeviceTail;
    ExampleDeviceLead();
    ExampleDeviceTail();
  }

  lemma ExampleDeviceLead()
    ensures DeviceLead + "/dev/vdc" == "Device [/dev/vdc"
  {
  }

  lemma ExampleDeviceTail()
    ensures "Device [/dev/vdc" + DeviceTail == "Device [/dev/vdc] not exists in current node"
  {
  }
}
