/** The fixed table of captured IR codes built in `main` (`irCodes`) and the
    button labels `buttonMap` connects to `buttonClicked`. The table is a
    `std::map` built from an initializer list by inserting the entries in
    order. `irCodes` has no repeated key; for a list that has one, the model
    keeps the first value. */
module Catalogue {
  import opened Wrappers
  import opened FlircDevice
  import opened Toggle
  import opened Remote

  /** `std::map::insert`: a key that is already present is left alone. */
  function Insert(m: map<string, CodePair>, key: string, value: CodePair): (r: map<string, CodePair>)
    ensures r.Keys == m.Keys + {key}
    ensures key in m ==> r[key] == m[key]
    ensures key !in m ==> r[key] == value
    ensures forall k :: k in m && k != key ==> r[k] == m[k]
  {
    if key in m then m else m[key := value]
  }

  /** The map an initializer list builds: every entry inserted in order.
      Whatever follows it, the first entry is stored as written. */
  function Table(entries: seq<(string, CodePair)>): (r: map<string, CodePair>)
    ensures entries != [] ==> entries[0].0 in r && r[entries[0].0] == entries[0].1
    decreases |entries|
  {
    if entries == [] then map[]
    else
      var n := |entries| - 1;
      Insert(Table(entries[..n]), entries[n].0, entries[n].1)
  }

  /** The keys of an initializer list, in order. */
  function Names(entries: seq<(string, CodePair)>): (r: seq<string>)
    ensures |r| == |entries|
    ensures forall i :: 0 <= i < |entries| ==> r[i] == entries[i].0
  {
    seq(|entries|, i requires 0 <= i < |entries| => entries[i].0)
  }

  /** Every entry of an initializer list holds two transmittable sequences. */
  predicate AllTransmittable(entries: seq<(string, CodePair)>) {
    forall i :: 0 <= i < |entries| ==> Transmittable(entries[i].1.first) && Transmittable(entries[i].1.second)
  }

  /** The map has exactly the keys the list names. */
  lemma {:induction false} TableKeys(entries: seq<(string, CodePair)>)
    ensures forall k :: k in Table(entries) <==> k in Names(entries)
    decreases |entries|
  {
    if entries != [] {
      var n := |entries| - 1;
      TableKeys(entries[..n]);
      assert Names(entries) == Names(entries[..n]) + [entries[n].0];
    }
  }

  /** The value stored under a key is the one of its FIRST entry; later
      entries with the same key are ignored. */
  lemma {:induction false} TableFirstWins(entries: seq<(string, CodePair)>, i: nat)
    requires i < |entries|
    requires forall j :: 0 <= j < i ==> entries[j].0 != entries[i].0
    ensures entries[i].0 in Table(entries)
    ensures Table(entries)[entries[i].0] == entries[i].1
    decreases |entries|
  {
    var n := |entries| - 1;
    var prefix := entries[..n];
    if i == n {
      TableKeys(prefix);
      assert entries[i].0 !in Names(prefix);
    } else {
      TableFirstWins(prefix, i);
    }
  }

  /** A list of transmittable entries builds a well-formed table. */
  lemma {:induction false} TableWellFormed(entries: seq<(string, CodePair)>)
    requires AllTransmittable(entries)
    ensures WellFormed(Table(entries))
    decreases |entries|
  {
    if entries != [] {
      var n := |entries| - 1;
      assert AllTransmittable(entries[..n]) by {
        forall i | 0 <= i < n
          ensures Transmittable(entries[..n][i].1.first) && Transmittable(entries[..n][i].1.second)
        {
          assert entries[..n][i] == entries[i];
        }
      }
      TableWellFormed(entries[..n]);
    }
  }

  /** Joining two lists joins their keys and keeps every entry transmittable. */
  lemma JoinEntries(xs: seq<(string, CodePair)>, ys: seq<(string, CodePair)>)
    ensures Names(xs + ys) == Names(xs) + Names(ys)
    ensures AllTransmittable(xs) && AllTransmittable(ys) ==> AllTransmittable(xs + ys)
  {
    if AllTransmittable(xs) && AllTransmittable(ys) {
      forall i | 0 <= i < |xs + ys|
        ensures Transmittable((xs + ys)[i].1.first) && Transmittable((xs + ys)[i].1.second)
      {
        if i >= |xs| {
          assert (xs + ys)[i] == ys[i - |xs|];
        }
      }
    }
  }

  /** Lines 113-122 of `main`'s table. */
  function Block1(): (entries: seq<(string, CodePair)>)
    ensures Names(entries) == ["Power", "Mode", "Up", "Down", "Left"]
    ensures AllTransmittable(entries)
  {
    [
      ("Power", CodePair(
        [1781, 835, 952, 1638, 925, 782, 1736, 1727, 919, 788, 1799, 846, 872, 1727, 871, 863, 1853, 811, 872],
        [1735, 1735, 813, 913, 893, 815, 1772, 1690, 886, 821, 1825, 821, 872, 1726, 874, 863, 1852, 812, 908])),
      ("Mode", CodePair(
        [1799, 820, 935, 1655, 906, 801, 1796, 1666, 907, 801, 908, 808, 1850, 1668, 1850, 814, 932, 812, 933],
        [1770, 1703, 842, 884, 904, 804, 1763, 1699, 875, 832, 874, 843, 1792, 1726, 1791, 873, 901, 844, 900])),
      ("Up", CodePair(
        [1736, 882, 921, 1668, 894, 814, 1736, 1727, 891, 817, 889, 828, 1826, 838, 873, 872, 872, 873, 873, 872, 873],
        [1772, 1700, 792, 935, 844, 863, 1795, 1668, 882, 826, 845, 872, 1853, 811, 908, 837, 908, 836, 909, 837, 908])),
      ("Down", CodePair(
        [1774, 833, 954, 1636, 927, 782, 1778, 1684, 923, 785, 920, 797, 1828, 837, 872, 873, 872, 873, 872, 1742, 829],
        [1783, 1689, 791, 936, 922, 784, 1736, 1727, 893, 815, 892, 825, 1826, 838, 873, 871, 873, 872, 874, 1725, 851])),
      ("Left", CodePair(
        [1714, 908, 847, 1743, 814, 894, 1705, 1759, 820, 888, 812, 905, 817, 919, 1761, 904, 848, 897, 849, 1750, 814],
        [1707, 1767, 843, 884, 819, 889, 1680, 1783, 813, 895, 813, 904, 848, 888, 1736, 928, 849, 897, 840, 1760, 820]))
    ]
  }

  /** Lines 123-132 of `main`'s table. */
  function Block2(): (entries: seq<(string, CodePair)>)
    ensures Names(entries) == ["Right", "Select", "Volume -", "Volume +", "Record"]
    ensures AllTransmittable(entries)
  {
    [
      ("Right", CodePair(
        [1735, 885, 845, 1744, 840, 869, 1707, 1755, 816, 892, 792, 925, 844, 891, 1761, 903, 820, 925, 841, 904, 841],
        [1708, 1766, 795, 932, 813, 894, 1705, 1755, 816, 895, 813, 904, 845, 890, 1736, 929, 841, 903, 868, 877, 848])),
      ("Select", CodePair(
        [1791, 842, 945, 1631, 931, 777, 1790, 1673, 931, 777, 931, 786, 1842, 823, 957, 788, 956, 1643, 957, 779, 930],
        [1818, 1654, 865, 861, 931, 778, 1759, 1703, 902, 806, 900, 817, 1767, 896, 922, 823, 897, 1702, 897, 839, 868])),
      ("Volume -", CodePair(
        [1778, 835, 947, 1638, 921, 784, 1772, 1684, 918, 787, 1797, 1696, 1823, 837, 912, 830, 911, 1683, 887],
        [1775, 1699, 801, 914, 917, 787, 1730, 1726, 890, 815, 1795, 1697, 1823, 837, 869, 873, 869, 1724, 884])),
      ("Volume +", CodePair(
        [1773, 841, 918, 1667, 915, 789, 1729, 1727, 889, 815, 1795, 1698, 1821, 838, 869, 873, 868, 873, 869],
        [1789, 1691, 795, 913, 878, 826, 1792, 1664, 878, 827, 1847, 1646, 1872, 787, 931, 811, 930, 811, 930])),
      ("Record", CodePair(
        [1804, 809, 950, 1635, 924, 781, 1775, 1681, 920, 785, 918, 796, 1823, 1689, 1821, 1690, 1846],
        [1778, 1688, 810, 913, 922, 783, 1773, 1683, 918, 786, 917, 798, 1823, 1689, 1830, 1682, 1845]))
    ]
  }

  /** Lines 133-144 of `main`'s table. */
  function Block3(): (entries: seq<(string, CodePair)>)
    ensures Names(entries) == ["Pause/Mute", "Bookmark", "Favorite", "1", "2"]
    ensures AllTransmittable(entries)
  {
    [
      ("Pause/Mute", CodePair(
        [1783, 830, 927, 1657, 925, 780, 1778, 1677, 923, 781, 1735, 906, 920, 1674, 920, 811, 1760, 1752, 894],
        [1752, 1713, 810, 913, 895, 810, 1703, 1752, 892, 813, 1735, 906, 844, 1750, 845, 888, 1759, 1752, 862])),
      ("Bookmark", CodePair(
        [1816, 798, 956, 1628, 902, 801, 1824, 1632, 927, 777, 1813, 1679, 1867, 1644, 956, 776, 956, 776, 927],
        [1768, 1696, 811, 913, 886, 823, 1761, 1690, 884, 821, 1820, 1673, 1845, 1667, 907, 825, 907, 825, 840])),
      ("Favorite", CodePair(
        [1730, 883, 918, 1668, 891, 814, 1730, 1727, 889, 816, 888, 826, 1823, 838, 869, 873, 869, 1725, 1847],
        [1776, 1690, 811, 913, 919, 786, 1731, 1727, 896, 809, 889, 825, 1822, 838, 869, 873, 869, 1726, 1846])),
      ("1", CodePair(
        [1811, 801, 955, 1629, 927, 787, 1770, 1677, 923, 782, 1796, 844, 944, 798, 918, 823, 917, 825, 916, 1678, 889],
        [1810, 1656, 809, 913, 927, 779, 1778, 1677, 923, 782, 1797, 844, 918, 823, 918, 824, 917, 824, 916, 1679, 890])),
      ("2", CodePair(
        [1772, 840, 919, 1667, 916, 789, 1730, 1727, 890, 816, 1795, 846, 870, 881, 860, 873, 869, 1726, 1846],
        [1768, 1699, 810, 913, 881, 824, 1766, 1691, 840, 865, 1822, 819, 907, 835, 906, 836, 906, 1689, 1847]))
    ]
  }

  /** Lines 145-156 of `main`'s table. */
  function Block4(): (entries: seq<(string, CodePair)>)
    ensures Names(entries) == ["3", "4", "5", "6", "7"]
    ensures AllTransmittable(entries)
  {
    [
      ("3", CodePair(
        [1779, 834, 949, 1647, 912, 782, 1776, 1682, 919, 787, 1796, 844, 917, 825, 915, 827, 914, 1681, 915, 818, 887],
        [1775, 1691, 810, 914, 918, 787, 1730, 1727, 915, 790, 1796, 845, 914, 828, 913, 829, 911, 1690, 906, 821, 886])),
      ("4", CodePair(
        [1808, 805, 953, 1632, 926, 780, 1778, 1678, 923, 782, 1798, 844, 917, 825, 916, 1679, 1844, 815, 913],
        [1810, 1656, 809, 914, 926, 779, 1778, 1678, 923, 783, 1797, 845, 918, 823, 918, 1677, 1820, 840, 914])),
      ("5", CodePair(
        [1768, 845, 884, 1701, 887, 818, 1767, 1702, 871, 820, 1821, 821, 869, 872, 908, 1686, 1847, 1666, 840],
        [1767, 1699, 810, 914, 839, 865, 1790, 1666, 840, 865, 1822, 819, 905, 836, 905, 1689, 1848, 1664, 877])),
      ("6", CodePair(
        [1814, 800, 955, 1630, 926, 778, 1786, 1670, 926, 778, 1784, 857, 953, 788, 954, 1640, 954, 779, 1836],
        [1817, 1650, 902, 822, 924, 781, 1813, 1643, 927, 778, 1811, 830, 955, 787, 954, 1640, 955, 778, 1838])),
      ("7", CodePair(
        [1791, 822, 930, 1654, 876, 828, 1817, 1639, 901, 803, 1855, 785, 957, 785, 957, 1637, 956, 776, 959, 773, 901],
        [1730, 1736, 810, 913, 888, 817, 1767, 1690, 884, 820, 1821, 821, 869, 872, 908, 1687, 907, 825, 907, 826, 840]))
    ]
  }

  /** Lines 157-168 of `main`'s table. */
  function Block5(): (entries: seq<(string, CodePair)>)
    ensures Names(entries) == ["8", "9", "0", "Jump", "Display"]
    ensures AllTransmittable(entries)
  {
    [
      ("8", CodePair(
        [1705, 909, 846, 1740, 864, 841, 1704, 1753, 862, 843, 1768, 873, 845, 1749, 1794, 867, 857, 884, 845],
        [1746, 1720, 856, 867, 890, 815, 1704, 1752, 863, 841, 1768, 873, 845, 1749, 1793, 867, 844, 897, 845])),
      ("9", CodePair(
        [1783, 831, 920, 1665, 919, 787, 1730, 1727, 890, 814, 1796, 846, 913, 1682, 1822, 838, 869, 1725, 885],
        [1776, 1691, 810, 914, 918, 787, 1730, 1727, 890, 815, 1795, 847, 925, 1669, 1822, 838, 869, 1726, 884])),
      ("0", CodePair(
        [1810, 804, 954, 1631, 927, 778, 1779, 1678, 923, 782, 1798, 844, 918, 824, 917, 825, 916, 826, 915, 827, 914],
        [1809, 1657, 809, 914, 926, 779, 1778, 1696, 906, 783, 1798, 843, 921, 821, 918, 825, 915, 826, 916, 826, 914])),
      ("Jump", CodePair(
        [1791, 824, 930, 1655, 901, 805, 1788, 1670, 899, 806, 899, 815, 898, 835, 897, 836, 924, 809, 869, 864, 1809],
        [1793, 1675, 921, 817, 860, 832, 1790, 1667, 875, 834, 871, 839, 933, 800, 932, 803, 931, 802, 930, 802, 1846])),
      ("Display", CodePair(
        [1767, 848, 907, 1678, 874, 832, 1791, 1666, 901, 804, 901, 814, 930, 802, 930, 803, 1843, 1670, 1841],
        [1706, 1762, 861, 863, 859, 846, 1704, 1753, 815, 890, 814, 900, 845, 888, 845, 888, 1794, 1719, 1793]))
    ]
  }

  /** The initializer list of `irCodes`, in source order. */
  function Entries(): seq<(string, CodePair)> {
    Block1() + Block2() + Block3() + Block4() + Block5()
  }

  /** The `irCodes` table of `main`: each entry carries two non-empty
      sequences whose length fits the `uint16_t` length argument of the
      transmit primitive. */
  function IrCodes(): (r: map<string, CodePair>)
    ensures WellFormed(r)
  {
    EntriesTransmittable();
    TableWellFormed(Entries());
    Table(Entries())
  }

  /** The initializer list of `irCodes` holds transmittable sequences only. */
  lemma EntriesTransmittable()
    ensures AllTransmittable(Entries())
  {
    var b1, b2, b3, b4, b5 := Block1(), Block2(), Block3(), Block4(), Block5();
    JoinEntries(b1, b2);
    JoinEntries(b1 + b2, b3);
    JoinEntries(b1 + b2 + b3, b4);
    JoinEntries(b1 + b2 + b3 + b4, b5);
  }

  /** The keys of the initializer list of `irCodes` are those of its blocks,
      in source order. */
  lemma EntryNames()
    ensures Names(Entries()) == Names(Block1()) + Names(Block2()) + Names(Block3()) + Names(Block4()) + Names(Block5())
  {
    var b1, b2, b3, b4, b5 := Block1(), Block2(), Block3(), Block4(), Block5();
    JoinEntries(b1, b2);
    JoinEntries(b1 + b2, b3);
    JoinEntries(b1 + b2 + b3, b4);
    JoinEntries(b1 + b2 + b3 + b4, b5);
  }

  /** The labels `buttonMap` connects to `buttonClicked`, one per button. */
  function ButtonLabels(): (labels: seq<string>)
    ensures |labels| == 25
  {
    [ "Power", "Mode", "Up", "Down", "Left",
      "Right", "Select", "Volume -", "Volume +", "Record",
      "Pause/Mute", "Bookmark", "Favorite", "1", "2",
      "3", "4", "5", "6", "7",
      "8", "9", "Jump", "0", "Display" ]
  }

  /** The button labels are exactly the keys of the initializer list. */
  lemma LabelsAreEntryNames()
    ensures forall l :: l in ButtonLabels() <==> l in Names(Entries())
  {
    EntryNames();
  }

  /** Every button label resolves to an `irCodes` entry, and every entry
      has a button. */
  lemma LabelsMatchCatalogue()
    ensures forall l :: l in ButtonLabels() <==> l in IrCodes()
  {
    LabelsAreEntryNames();
    TableKeys(Entries());
  }

  /** In a table that has an entry for every button label, the wheel and
      the middle click only trigger catalogued actions; `irCodes` is such a
      table (`LabelsMatchCatalogue`). */
  lemma InputsMatchCatalogue(codes: map<string, CodePair>)
    requires forall l :: l in ButtonLabels() ==> l in codes
    ensures forall deltaY :: WheelAction(deltaY).Some? ==> WheelAction(deltaY).value in codes
    ensures forall button :: MousePressAction(button).Some? ==> MousePressAction(button).value in codes
  {
    var labels := ButtonLabels();
    assert labels[2] == "Up" && labels[3] == "Down" && labels[6] == "Select";
  }

  /** "Power" is looked up in the entry of line 113, the first in the list. */
  lemma PowerEntry()
    ensures "Power" in IrCodes() && IrCodes()["Power"] == Block1()[0].1
  {
    TableFirstWins(Entries(), 0);
  }

  /** Three presses of "Power" from the start send `.second`, `.first`,
      `.second` of its entry, in that order. */
  lemma PowerPressedThrice()
    ensures "Power" in IrCodes()
    ensures SentAfter(IrCodes(), map[], ["Power", "Power", "Power"])
         == [IrCodes()["Power"].second, IrCodes()["Power"].first, IrCodes()["Power"].second]
  {
    PowerEntry();
    ThreePresses(IrCodes(), "Power");
  }

  /** The transmit calls `main` makes for `events` once the device is open. */
  function RemoteSends(events: seq<InputEvent>): seq<Transmission> {
    Wire(SentAfter(IrCodes(), map[], Triggered(events)))
  }

  /** `main` with its own table: a failed open exits with -1 having sent
      nothing; otherwise the device is closed exactly once at the end, and
      every transmit uses 2300 Hz, no repeats and the full, non-empty length
      of a catalogued sequence. */
  method RunRemote(openResult: int, events: seq<InputEvent>, vendor: seq<int>, execResult: int)
    returns (exitCode: int, transmitted: seq<Transmission>, closes: nat)
    requires |vendor| == |events|
    ensures openResult < 0 ==> exitCode == -1 && transmitted == [] && closes == 0
    ensures openResult >= 0 ==> exitCode == execResult && closes == 1
    ensures forall t :: t in transmitted ==>
      t.frequency == 2300 && t.repeats == 0 && t.len as int == |t.code| && Transmittable(t.code)
    ensures openResult >= 0 ==> transmitted == RemoteSends(events)
  {
    exitCode, transmitted, closes := RunApplication(IrCodes(), openResult, events, vendor, execResult);
    TransmissionsUseFixedCarrier(IrCodes(), map[], Triggered(events));
  }
}
