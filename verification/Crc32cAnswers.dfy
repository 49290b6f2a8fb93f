/** Answers that are known from elsewhere: they pin the constants, which the laws of the checksum
    would hold with others as well. */
module Crc32cAnswers {
  import opened Wire
  import opened Crc32c

  lemma BitsStep(n: nat, k: nat, c: bv32, d: bv32)
    requires Bits(n / 2, k) == c && PushBit(c, n % 2 == 1) == d
    ensures Bits(n, k + 1) == d
  {}

  /** The register over eight bits. */
  lemma Eight(c0: bv32, c1: bv32, c2: bv32, c3: bv32, c4: bv32, c5: bv32, c6: bv32, c7: bv32, c8: bv32)
    requires Step(c0) == c1 && Step(c1) == c2 && Step(c2) == c3 && Step(c3) == c4
    requires Step(c4) == c5 && Step(c5) == c6 && Step(c6) == c7 && Step(c7) == c8
    ensures Step8(c0) == c8
  {
    hide Step;
  }

  /** The register after one more byte. */
  lemma Next(data: Bytes, b: Byte, r: bv32, c: bv32, c0: bv32, d: bv32)
    requires Update(0xFFFF_FFFF, data) == c && Register(b) == r
    requires Xor(c, r) == c0 && Step8(c0) == d
    ensures Update(0xFFFF_FFFF, data + [b]) == d
  {
    assert (data + [b])[..|data|] == data;
    hide Step8, Register, Xor;
  }

  lemma NoBytes()
    ensures Update(0xFFFF_FFFF, []) == 0xFFFF_FFFF
  {}

  lemma Zero()
    ensures Register(0x00) == 0x00
  {
    assert Bits(0, 0) == 0;
    BitsStep(0, 0, 0, 0);
    BitsStep(0, 1, 0, 0);
    BitsStep(0, 2, 0, 0);
    BitsStep(0, 3, 0, 0);
    BitsStep(0, 4, 0, 0);
    BitsStep(0, 5, 0, 0);
    BitsStep(0, 6, 0, 0);
    BitsStep(0, 7, 0, 0);
  }

  lemma Digit1()
    ensures Register(0x31) == 0x31
  {
    assert Bits(0, 0) == 0;
    BitsStep(0, 0, 0, 0);
    BitsStep(0, 1, 0, 0);
    BitsStep(1, 2, 0, 1);
    BitsStep(3, 3, 1, 3);
    BitsStep(6, 4, 3, 6);
    BitsStep(12, 5, 6, 12);
    BitsStep(24, 6, 12, 24);
    BitsStep(49, 7, 24, 49);
  }

  lemma Digit2()
    ensures Register(0x32) == 0x32
  {
    assert Bits(0, 0) == 0;
    BitsStep(0, 0, 0, 0);
    BitsStep(0, 1, 0, 0);
    BitsStep(1, 2, 0, 1);
    BitsStep(3, 3, 1, 3);
    BitsStep(6, 4, 3, 6);
    BitsStep(12, 5, 6, 12);
    BitsStep(25, 6, 12, 25);
    BitsStep(50, 7, 25, 50);
  }

  lemma Digit3()
    ensures Register(0x33) == 0x33
  {
    assert Bits(0, 0) == 0;
    BitsStep(0, 0, 0, 0);
    BitsStep(0, 1, 0, 0);
    BitsStep(1, 2, 0, 1);
    BitsStep(3, 3, 1, 3);
    BitsStep(6, 4, 3, 6);
    BitsStep(12, 5, 6, 12);
    BitsStep(25, 6, 12, 25);
    BitsStep(51, 7, 25, 51);
  }

  lemma Digit4()
    ensures Register(0x34) == 0x34
  {
    assert Bits(0, 0) == 0;
    BitsStep(0, 0, 0, 0);
    BitsStep(0, 1, 0, 0);
    BitsStep(1, 2, 0, 1);
    BitsStep(3, 3, 1, 3);
    BitsStep(6, 4, 3, 6);
    BitsStep(13, 5, 6, 13);
    BitsStep(26, 6, 13, 26);
    BitsStep(52, 7, 26, 52);
  }

  lemma Digit5()
    ensures Register(0x35) == 0x35
  {
    assert Bits(0, 0) == 0;
    BitsStep(0, 0, 0, 0);
    BitsStep(0, 1, 0, 0);
    BitsStep(1, 2, 0, 1);
    BitsStep(3, 3, 1, 3);
    BitsStep(6, 4, 3, 6);
    BitsStep(13, 5, 6, 13);
    BitsStep(26, 6, 13, 26);
    BitsStep(53, 7, 26, 53);
  }

  lemma Digit6()
    ensures Register(0x36) == 0x36
  {
    assert Bits(0, 0) == 0;
    BitsStep(0, 0, 0, 0);
    BitsStep(0, 1, 0, 0);
    BitsStep(1, 2, 0, 1);
    BitsStep(3, 3, 1, 3);
    BitsStep(6, 4, 3, 6);
    BitsStep(13, 5, 6, 13);
    BitsStep(27, 6, 13, 27);
    BitsStep(54, 7, 27, 54);
  }

  lemma Digit7()
    ensures Register(0x37) == 0x37
  {
    assert Bits(0, 0) == 0;
    BitsStep(0, 0, 0, 0);
    BitsStep(0, 1, 0, 0);
    BitsStep(1, 2, 0, 1);
    BitsStep(3, 3, 1, 3);
    BitsStep(6, 4, 3, 6);
    BitsStep(13, 5, 6, 13);
    BitsStep(27, 6, 13, 27);
    BitsStep(55, 7, 27, 55);
  }

  lemma Digit8()
    ensures Register(0x38) == 0x38
  {
    assert Bits(0, 0) == 0;
    BitsStep(0, 0, 0, 0);
    BitsStep(0, 1, 0, 0);
    BitsStep(1, 2, 0, 1);
    BitsStep(3, 3, 1, 3);
    BitsStep(7, 4, 3, 7);
    BitsStep(14, 5, 7, 14);
    BitsStep(28, 6, 14, 28);
    BitsStep(56, 7, 28, 56);
  }

  lemma Digit9()
    ensures Register(0x39) == 0x39
  {
    assert Bits(0, 0) == 0;
    BitsStep(0, 0, 0, 0);
    BitsStep(0, 1, 0, 0);
    BitsStep(1, 2, 0, 1);
    BitsStep(3, 3, 1, 3);
    BitsStep(7, 4, 3, 7);
    BitsStep(14, 5, 7, 14);
    BitsStep(28, 6, 14, 28);
    BitsStep(57, 7, 28, 57);
  }

  lemma DigitSteps()
    ensures Xor(0xFFFF_FFFF, 0x31) == 0xFFFF_FFCE && Step8(0xFFFF_FFCE) == 0x6F0A_661C
    ensures Xor(0x6F0A_661C, 0x32) == 0x6F0A_662E && Step8(0x6F0A_662E) == 0x8CAA_3B9F
    ensures Xor(0x8CAA_3B9F, 0x33) == 0x8CAA_3BAC && Step8(0x8CAA_3BAC) == 0xEF84_D04D
    ensures Xor(0xEF84_D04D, 0x34) == 0xEF84_D079 && Step8(0xEF84_D079) == 0x09C5_0B11
    ensures Xor(0x09C5_0B11, 0x35) == 0x09C5_0B24 && Step8(0x09C5_0B24) == 0xE72E_DCCA
    ensures Xor(0xE72E_DCCA, 0x36) == 0xE72E_DCFC && Step8(0xE72E_DCFC) == 0xBECA_8E79
    ensures Xor(0xBECA_8E79, 0x37) == 0xBECA_8E4E && Step8(0xBECA_8E4E) == 0xEDBD_6815
    ensures Xor(0xEDBD_6815, 0x38) == 0xEDBD_682D && Step8(0xEDBD_682D) == 0x9F78_7F65
    ensures Xor(0x9F78_7F65, 0x39) == 0x9F78_7F5C && Step8(0x9F78_7F5C) == 0x1CF9_6D7C
  {
    hide Step8;
    Eight(0xFFFF_FFCE, 0x7FFF_FFE7, 0xBD09_C48B, 0xDC72_D93D, 0xECCF_57E6, 0x7667_ABF3, 0xB9C5_EE81, 0xDE14_CC38, 0x6F0A_661C);
    Eight(0x6F0A_662E, 0x3785_3317, 0x9934_A2F3, 0xCE6C_6A01, 0xE5C0_0E78, 0x72E0_073C, 0x3970_039E, 0x1CB8_01CF, 0x8CAA_3B9F);
    Eight(0x8CAA_3BAC, 0x4655_1DD6, 0x232A_8EEB, 0x9363_7C0D, 0xCB47_857E, 0x65A3_C2BF, 0xB027_DA27, 0xDAE5_D66B, 0xEF84_D04D);
    Eight(0xEF84_D079, 0xF534_5344, 0x7A9A_29A2, 0x3D4D_14D1, 0x9C50_B110, 0x4E28_5888, 0x2714_2C44, 0x138A_1622, 0x09C5_0B11);
    Eight(0x09C5_0B24, 0x04E2_8592, 0x0271_42C9, 0x83CE_9A1C, 0x41E7_4D0E, 0x20F3_A687, 0x928F_E83B, 0xCBB1_CF65, 0xE72E_DCCA);
    Eight(0xE72E_DCFC, 0x7397_6E7E, 0x39CB_B73F, 0x9E13_E0E7, 0xCDFF_CB0B, 0xE409_DEFD, 0xF0F2_D406, 0x7879_6A03, 0xBECA_8E79);
    Eight(0xBECA_8E4E, 0x5F65_4727, 0xAD44_98EB, 0xD454_770D, 0xE8DC_00FE, 0x746E_007F, 0xB8C1_3B47, 0xDE96_A6DB, 0xEDBD_6815);
    Eight(0xEDBD_682D, 0xF428_8F6E, 0x7A14_47B7, 0xBFFC_18A3, 0xDD08_3729, 0xEC72_20EC, 0x7639_1076, 0x3B1C_883B, 0x9F78_7F65);
    Eight(0x9F78_7F5C, 0x4FBC_3FAE, 0x27DE_1FD7, 0x9119_3493, 0xCA7A_A131, 0xE7CB_6BE0, 0x73E5_B5F0, 0x39F2_DAF8, 0x1CF9_6D7C);
  }

  lemma After3()
    ensures Update(0xFFFF_FFFF, [0x31, 0x32, 0x33]) == 0xEF84_D04D
  {
    hide Update, Register, Step8, Xor;
    DigitSteps();
    var data: Bytes := [];
    NoBytes();
    Digit1();
    Next(data, 0x31, 0x31, 0xFFFF_FFFF, 0xFFFF_FFCE, 0x6F0A_661C);
    data := data + [0x31];
    Digit2();
    Next(data, 0x32, 0x32, 0x6F0A_661C, 0x6F0A_662E, 0x8CAA_3B9F);
    data := data + [0x32];
    Digit3();
    Next(data, 0x33, 0x33, 0x8CAA_3B9F, 0x8CAA_3BAC, 0xEF84_D04D);
    data := data + [0x33];
    assert data == [0x31, 0x32, 0x33];
  }

  lemma After6()
    ensures Update(0xFFFF_FFFF, [0x31, 0x32, 0x33, 0x34, 0x35, 0x36]) == 0xBECA_8E79
  {
    hide Update, Register, Step8, Xor;
    DigitSteps();
    var data: Bytes := [0x31, 0x32, 0x33];
    After3();
    Digit4();
    Next(data, 0x34, 0x34, 0xEF84_D04D, 0xEF84_D079, 0x09C5_0B11);
    data := data + [0x34];
    Digit5();
    Next(data, 0x35, 0x35, 0x09C5_0B11, 0x09C5_0B24, 0xE72E_DCCA);
    data := data + [0x35];
    Digit6();
    Next(data, 0x36, 0x36, 0xE72E_DCCA, 0xE72E_DCFC, 0xBECA_8E79);
    data := data + [0x36];
    assert data == [0x31, 0x32, 0x33, 0x34, 0x35, 0x36];
  }

  lemma After9()
    ensures Update(0xFFFF_FFFF, [0x31, 0x32, 0x33, 0x34, 0x35, 0x36, 0x37, 0x38, 0x39]) == 0x1CF9_6D7C
  {
    hide Update, Register, Step8, Xor;
    DigitSteps();
    var data: Bytes := [0x31, 0x32, 0x33, 0x34, 0x35, 0x36];
    After6();
    Digit7();
    Next(data, 0x37, 0x37, 0xBECA_8E79, 0xBECA_8E4E, 0xEDBD_6815);
    data := data + [0x37];
    Digit8();
    Next(data, 0x38, 0x38, 0xEDBD_6815, 0xEDBD_682D, 0x9F78_7F65);
    data := data + [0x38];
    Digit9();
    Next(data, 0x39, 0x39, 0x9F78_7F65, 0x9F78_7F5C, 0x1CF9_6D7C);
    data := data + [0x39];
    assert data == [0x31, 0x32, 0x33, 0x34, 0x35, 0x36, 0x37, 0x38, 0x39];
  }

  /** The check value of the checksum: that of the nine digits. */
  lemma CheckValue()
    ensures Checksum([0x31, 0x32, 0x33, 0x34, 0x35, 0x36, 0x37, 0x38, 0x39]) == 0xE306_9283
  {
    After9();
    hide Update;
  }

  function Zeros(n: nat): Bytes { seq(n, _ => 0) }

  lemma ZeroByte(n: nat, c: bv32, d: bv32)
    requires Update(0xFFFF_FFFF, Zeros(n)) == c && Step8(c) == d
    ensures Update(0xFFFF_FFFF, Zeros(n + 1)) == d
  {
    Zero();
    assert Zeros(n + 1)[..n] == Zeros(n);
    assert Xor(c, 0) == c;
    hide Step8, Register, Xor;
  }

  lemma Zeros8()
    ensures Update(0xFFFF_FFFF, Zeros(8)) == 0x73D7_4D75
  {
    assert Zeros(0) == [];
    hide Update, Zeros, Step8;
    Eight(0xFFFF_FFFF, 0xFD09_C487, 0xFC72_D93B, 0xFCCF_57E5, 0xFC91_908A, 0x7E48_C845, 0xBDD2_5F5A, 0x5EE9_2FAD, 0xAD82_ACAE);
    ZeroByte(0, 0xFFFF_FFFF, 0xAD82_ACAE);
    Eight(0xAD82_ACAE, 0x56C1_5657, 0xA996_9053, 0xD63D_7351, 0xE9E8_82D0, 0x74F4_4168, 0x3A7A_20B4, 0x1D3D_105A, 0x0E9E_882D);
    ZeroByte(1, 0xAD82_ACAE, 0x0E9E_882D);
    Eight(0x0E9E_882D, 0x85B9_7F6E, 0x42DC_BFB7, 0xA398_64A3, 0xD33A_0929, 0xEB6B_3FEC, 0x75B5_9FF6, 0x3ADA_CFFB, 0x9F9B_5C85);
    ZeroByte(2, 0x0E9E_882D, 0x9F9B_5C85);
    Eight(0x9F9B_5C85, 0xCD3B_953A, 0x669D_CA9D, 0xB1B8_DE36, 0x58DC_6F1B, 0xAE98_0CF5, 0xD5BA_3D02, 0x6ADD_1E81, 0xB798_B438);
    ZeroByte(3, 0x9F9B_5C85, 0xB798_B438);
    Eight(0xB798_B438, 0x5BCC_5A1C, 0x2DE6_2D0E, 0x16F3_1687, 0x898F_B03B, 0xC631_E365, 0xE1EE_CACA, 0x70F7_6565, 0xBA8D_89CA);
    ZeroByte(4, 0xB798_B438, 0xBA8D_89CA);
    Eight(0xBA8D_89CA, 0x5D46_C4E5, 0xAC55_590A, 0x562A_AC85, 0xA9E3_6D3A, 0x54F1_B69D, 0xA88E_E036, 0x5447_701B, 0xA8D5_8375);
    ZeroByte(5, 0xBA8D_89CA, 0xA8D5_8375);
    Eight(0xA8D5_8375, 0xD69C_FAC2, 0x6B4E_7D61, 0xB751_05C8, 0x5BA8_82E4, 0x2DD4_4172, 0x16EA_20B9, 0x8983_2B24, 0x44C1_9592);
    ZeroByte(6, 0xA8D5_8375, 0x44C1_9592);
    Eight(0x44C1_9592, 0x2260_CAC9, 0x93C6_5E1C, 0x49E3_2F0E, 0x24F1_9787, 0x908E_F0BB, 0xCAB1_4325, 0xE7AE_9AEA, 0x73D7_4D75);
    ZeroByte(7, 0x44C1_9592, 0x73D7_4D75);
  }

  lemma Zeros16()
    ensures Update(0xFFFF_FFFF, Zeros(16)) == 0xBD8F_6515
  {
    Zeros8();
    hide Update, Zeros, Step8;
    Eight(0x73D7_4D75, 0xBB1D_9DC2, 0x5D8E_CEE1, 0xAC31_5C08, 0x5618_AE04, 0x2B0C_5702, 0x1586_2B81, 0x8835_2EB8, 0x441A_975C);
    ZeroByte(8, 0x73D7_4D75, 0x441A_975C);
    Eight(0x441A_975C, 0x220D_4BAE, 0x1106_A5D7, 0x8A75_6993, 0xC7CC_8FB1, 0xE110_7CA0, 0x7088_3E50, 0x3844_1F28, 0x1C22_0F94);
    ZeroByte(9, 0x441A_975C, 0x1C22_0F94);
    Eight(0x1C22_0F94, 0x0E11_07CA, 0x0708_83E5, 0x8172_7A8A, 0x40B9_3D45, 0xA2AA_A5DA, 0x5155_52ED, 0xAA5C_920E, 0x552E_4907);
    ZeroByte(10, 0x1C22_0F94, 0x552E_4907);
    Eight(0x552E_4907, 0xA861_1FFB, 0xD6C6_B485, 0xE995_613A, 0x74CA_B09D, 0xB893_6336, 0x5C49_B19B, 0xACD2_E3B5, 0xD49F_4AA2);
    ZeroByte(11, 0x552E_4907, 0xD49F_4AA2);
    Eight(0xD49F_4AA2, 0x6A4F_A551, 0xB7D1_E9D0, 0x5BE8_F4E8, 0x2DF4_7A74, 0x16FA_3D3A, 0x0B7D_1E9D, 0x8748_B436, 0x43A4_5A1B);
    ZeroByte(12, 0xD49F_4AA2, 0x43A4_5A1B);
    Eight(0x43A4_5A1B, 0xA324_1675, 0xD364_3042, 0x69B2_1821, 0xB62F_3768, 0x5B17_9BB4, 0x2D8B_CDDA, 0x16C5_E6ED, 0x8994_C80E);
    ZeroByte(13, 0x43A4_5A1B, 0x8994_C80E);
    Eight(0x8994_C80E, 0x44CA_6407, 0xA093_097B, 0xD2BF_BFC5, 0xEBA9_E49A, 0x75D4_F24D, 0xB81C_425E, 0x5C0E_212F, 0xACF1_2BEF);
    ZeroByte(14, 0x8994_C80E, 0xACF1_2BEF);
    Eight(0xACF1_2BEF, 0xD48E_AE8F, 0xE8B1_6C3F, 0xF6AE_8D67, 0xF9A1_7DCB, 0xFE26_859D, 0xFDE5_79B6, 0x7EF2_BCDB, 0xBD8F_6515);
    ZeroByte(15, 0xACF1_2BEF, 0xBD8F_6515);
  }

  lemma Zeros24()
    ensures Update(0xFFFF_FFFF, Zeros(24)) == 0x7B04_1311
  {
    Zeros16();
    hide Update, Zeros, Step8;
    Eight(0xBD8F_6515, 0xDC31_89F2, 0x6E18_C4F9, 0xB5FA_5904, 0x5AFD_2C82, 0x2D7E_9641, 0x9449_7058, 0x4A24_B82C, 0x2512_5C16);
    ZeroByte(16, 0xBD8F_6515, 0x2512_5C16);
    Eight(0x2512_5C16, 0x1289_2E0B, 0x8BB2_AC7D, 0xC72F_6D46, 0x6397_B6A3, 0xB33D_E029, 0xDB68_CB6C, 0x6DB4_65B6, 0x36DA_32DB);
    ZeroByte(17, 0x2512_5C16, 0x36DA_32DB);
    Eight(0x36DA_32DB, 0x999B_2215, 0xCE3B_AA72, 0x671D_D539, 0xB178_D1E4, 0x58BC_68F2, 0x2C5E_3479, 0x94D9_2144, 0x4A6C_90A2);
    ZeroByte(18, 0x36DA_32DB, 0x4A6C_90A2);
    Eight(0x4A6C_90A2, 0x2536_4851, 0x906D_1F50, 0x4836_8FA8, 0x241B_47D4, 0x120D_A3EA, 0x0906_D1F5, 0x8675_5382, 0x433A_A9C1);
    ZeroByte(19, 0x4A6C_90A2, 0x433A_A9C1);
    Eight(0x433A_A9C1, 0xA36B_6F98, 0x51B5_B7CC, 0x28DA_DBE6, 0x146D_6DF3, 0x88C0_8D81, 0xC696_7DB8, 0x634B_3EDC, 0x31A5_9F6E);
    ZeroByte(20, 0x433A_A9C1, 0x31A5_9F6E);
    Eight(0x31A5_9F6E, 0x18D2_CFB7, 0x8E9F_5CA3, 0xC5B9_9529, 0xE02A_F1EC, 0x7015_78F6, 0x380A_BC7B, 0x9EF3_6545, 0xCD8F_89DA);
    ZeroByte(21, 0x31A5_9F6E, 0xCD8F_89DA);
    Eight(0xCD8F_89DA, 0x66C7_C4ED, 0xB195_D90E, 0x58CA_EC87, 0xAE93_4D3B, 0xD5BF_9DE5, 0xE829_F58A, 0x7414_FAC5, 0xB8FC_461A);
    ZeroByte(22, 0xCD8F_89DA, 0xB8FC_461A);
    Eight(0xB8FC_461A, 0x5C7E_230D, 0xACC9_2AFE, 0x5664_957F, 0xA9C4_71C7, 0xD614_039B, 0xE9FC_3AB5, 0xF608_2622, 0x7B04_1311);
    ZeroByte(23, 0xB8FC_461A, 0x7B04_1311);
  }

  lemma Zeros32()
    ensures Update(0xFFFF_FFFF, Zeros(32)) == 0x756E_C955
  {
    Zeros24();
    hide Update, Zeros, Step8;
    Eight(0x7B04_1311, 0xBF74_32F0, 0x5FBA_1978, 0x2FDD_0CBC, 0x17EE_865E, 0x0BF7_432F, 0x870D_9AEF, 0xC170_F60F, 0xE24E_407F);
    ZeroByte(24, 0x7B04_1311, 0xE24E_407F);
    Eight(0xE24E_407F, 0xF3D1_1B47, 0xFB1E_B6DB, 0xFF79_6015, 0xFD4A_8B72, 0x7EA5_45B9, 0xBDA4_99A4, 0x5ED2_4CD2, 0x2F69_2669);
    ZeroByte(25, 0xE24E_407F, 0x2F69_2669);
    Eight(0x2F69_2669, 0x9542_A84C, 0x4AA1_5426, 0x2550_AA13, 0x905E_6E71, 0xCAD9_0C40, 0x656C_8620, 0x32B6_4310, 0x195B_2188);
    ZeroByte(26, 0x2F69_2669, 0x195B_2188);
    Eight(0x195B_2188, 0x0CAD_90C4, 0x0656_C862, 0x032B_6431, 0x8363_8960, 0x41B1_C4B0, 0x20D8_E258, 0x106C_712C, 0x0836_3896);
    ZeroByte(27, 0x195B_2188, 0x0836_3896);
    Eight(0x0836_3896, 0x041B_1C4B, 0x80FB_B55D, 0xC28B_E1D6, 0x6145_F0EB, 0xB254_C30D, 0xDBDC_5AFE, 0x6DEE_2D7F, 0xB401_2DC7);
    ZeroByte(28, 0x0836_3896, 0xB401_2DC7);
    Eight(0xB401_2DC7, 0xD8F6_AD9B, 0xEE8D_6DB5, 0xF5B0_8DA2, 0x7AD8_46D1, 0xBF9A_1810, 0x5FCD_0C08, 0x2FE6_8604, 0x17F3_4302);
    ZeroByte(29, 0xB401_2DC7, 0x17F3_4302);
    Eight(0x17F3_4302, 0x0BF9_A181, 0x870A_EBB8, 0x4385_75DC, 0x21C2_BAEE, 0x10E1_5D77, 0x8A86_95C3, 0xC7B5_7199, 0xE12C_83B4);
    ZeroByte(30, 0x17F3_4302, 0xE12C_83B4);
    Eight(0xE12C_83B4, 0x7096_41DA, 0x384B_20ED, 0x9ED3_AB0E, 0x4F69_D587, 0xA542_D1BB, 0xD057_53A5, 0xEADD_92AA, 0x756E_C955);
    ZeroByte(31, 0xE12C_83B4, 0x756E_C955);
  }

  lemma Zeros40()
    ensures Update(0xFFFF_FFFF, Zeros(40)) == 0xA6A0_4822
  {
    Zeros32();
    hide Update, Zeros, Step8;
    Eight(0x756E_C955, 0xB841_5FD2, 0x5C20_AFE9, 0xACE6_6C8C, 0x5673_3646, 0x2B39_9B23, 0x976A_F6E9, 0xC943_400C, 0x64A1_A006);
    ZeroByte(32, 0x756E_C955, 0x64A1_A006);
    Eight(0x64A1_A006, 0x3250_D003, 0x9BDE_5379, 0xCF19_12C4, 0x678C_8962, 0x33C6_44B1, 0x9B15_1920, 0x4D8A_8C90, 0x26C5_4648);
    ZeroByte(33, 0x64A1_A006, 0x26C5_4648);
    Eight(0x26C5_4648, 0x1362_A324, 0x09B1_5192, 0x04D8_A8C9, 0x809A_6F1C, 0x404D_378E, 0x2026_9BC7, 0x92E5_769B, 0xCB84_8035);
    ZeroByte(34, 0x26C5_4648, 0xCB84_8035);
    Eight(0xCB84_8035, 0xE734_7B62, 0x739A_3DB1, 0xBB3B_25A0, 0x5D9D_92D0, 0x2ECE_C968, 0x1767_64B4, 0x0BB3_B25A, 0x05D9_D92D);
    ZeroByte(35, 0xCB84_8035, 0x05D9_D92D);
    Eight(0x05D9_D92D, 0x801A_D7EE, 0x400D_6BF7, 0xA2F0_8E83, 0xD38E_7C39, 0xEB31_0564, 0x7598_82B2, 0x3ACC_4159, 0x9F90_1BD4);
    ZeroByte(36, 0x05D9_D92D, 0x9F90_1BD4);
    Eight(0x9F90_1BD4, 0x4FC8_0DEA, 0x27E4_06F5, 0x9104_3802, 0x4882_1C01, 0xA6B7_3578, 0x535B_9ABC, 0x29AD_CD5E, 0x14D6_E6AF);
    ZeroByte(37, 0x9F90_1BD4, 0x14D6_E6AF);
    Eight(0x14D6_E6AF, 0x889D_482F, 0xC6B8_9F6F, 0xE1AA_74CF, 0xF223_011F, 0xFBE7_BBF7, 0xFF05_E683, 0xFD74_C839, 0xFC4C_5F64);
    ZeroByte(38, 0x14D6_E6AF, 0xFC4C_5F64);
    Eight(0xFC4C_5F64, 0x7E26_2FB2, 0x3F13_17D9, 0x9D7F_B094, 0x4EBF_D84A, 0x275F_EC25, 0x9159_CD6A, 0x48AC_E6B5, 0xA6A0_4822);
    ZeroByte(39, 0xFC4C_5F64, 0xA6A0_4822);
  }

  /** The checksums of 32 and of 40 zero bytes. */
  lemma ZeroValues()
    ensures Checksum(Zeros(32)) == 0x8A91_36AA && Checksum(Zeros(40)) == 0x595F_B7DD
  {
    Zeros32();
    Zeros40();
    hide Update, Zeros;
  }
}
